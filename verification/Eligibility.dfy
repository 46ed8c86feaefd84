/** Session reconcile: entitlement rounds converge the subscriptions under a lease,
    and each round publishes the ledger a business frame is judged by. */
module Eligibility {
  import opened Options

  type Channel = string
  type Millis = int

  /** A member's route; `generation` is the Home it leads to. */
  datatype Route = Route(subject: string, generation: nat)

  datatype Subscription = Subscription(route: Route, temporary: bool, lastOK: Millis, paused: bool)

  /** One resolver round: it failed as a whole, or named routes and per-channel failures. */
  datatype Outcome = WholeFailure | Resolved(routes: map<Channel, Route>, failed: set<Channel>)

  /** `observable` are the temporary observations this round re-granted. */
  datatype Round = Round(now: Millis, outcome: Outcome, observable: map<Channel, Route>)

  datatype Ledger = Ledger(routes: map<Channel, Route>, paused: set<Channel>, failed: set<Channel>, globalErr: bool)

  datatype Verdict = Deliver(route: Route) | Unavailable | Forbidden

  /** The verdict part of an upstream business frame. */
  function Judge(st: Ledger, ch: Channel): Verdict {
    if ch in st.routes then Deliver(st.routes[ch])
    else if ch in st.paused then Unavailable
    else if ch in st.failed then Unavailable
    else if st.globalErr then Unavailable
    else Forbidden
  }

  // ----------------------------------------------------- what a round leaves

  /** Within the lease the last good route keeps serving; past it, it pauses. */
  function LeaseOrPause(sub: Subscription, now: Millis, stale: nat): Subscription {
    if now < sub.lastOK + stale then sub else sub.(paused := true)
  }

  function Observed(sub: Subscription, r: Round, ch: Channel): Option<Subscription> {
    if ch in r.observable then Some(sub.(route := r.observable[ch], lastOK := r.now)) else None
  }

  /** One channel's subscription after a round. */
  function After(sub: Option<Subscription>, ch: Channel, r: Round, stale: nat): Option<Subscription> {
    if r.outcome.Resolved? && ch in r.outcome.routes then
      Some(Subscription(r.outcome.routes[ch], false, r.now, false))
    else match sub
      case None => None
      case Some(s) =>
        if s.temporary then Observed(s, r, ch)
        else if r.outcome.WholeFailure? || ch in r.outcome.failed then Some(LeaseOrPause(s, r.now, stale))
        else None
  }

  function Get(subs: map<Channel, Subscription>, ch: Channel): Option<Subscription> {
    if ch in subs then Some(subs[ch]) else None
  }

  /** The subscriptions after a round, channel by channel. */
  ghost predicate Converged(before: map<Channel, Subscription>, after: map<Channel, Subscription>, r: Round, stale: nat) {
    forall ch :: Get(after, ch) == After(Get(before, ch), ch, r, stale)
  }

  function Publish(subs: map<Channel, Subscription>, globalErr: bool, failed: set<Channel>): Ledger {
    var paused := set ch | ch in subs && !subs[ch].temporary && subs[ch].paused;
    Ledger((map ch | ch in subs && !subs[ch].temporary && !subs[ch].paused :: subs[ch].route), paused, failed, globalErr)
  }

  function Published(subs: map<Channel, Subscription>, outcome: Outcome): Ledger {
    match outcome
    case WholeFailure => Publish(subs, true, {})
    case Resolved(_, failed) => Publish(subs, false, failed)
  }

  // ------------------------------------------------------------- the session

  class Session {
    var subs: map<Channel, Subscription>
    var elig: Ledger
    const stale: nat

    constructor (lease: nat)
      ensures subs == map[] && stale == lease && elig == Ledger(map[], {}, {}, false)
    {
      subs, elig, stale := map[], Ledger(map[], {}, {}, false), lease;
    }

    method KeepOrPause(ch: Channel, now: Millis)
      requires ch in subs
      modifies this`subs
      ensures subs == old(subs)[ch := LeaseOrPause(old(subs)[ch], now, stale)]
    {
      if now < subs[ch].lastOK + stale {
        return;
      }
      if !subs[ch].paused {
        subs := subs[ch := subs[ch].(paused := true)];
      }
    }

    method RefreshObservation(ch: Channel, r: Round)
      requires ch in subs && subs[ch].temporary
      modifies this`subs
      ensures Get(subs, ch) == Observed(old(subs)[ch], r, ch)
      ensures subs - {ch} == old(subs) - {ch}
    {
      if ch !in r.observable {
        subs := subs - {ch};
        return;
      }
      subs := subs[ch := subs[ch].(route := r.observable[ch], lastOK := r.now)];
    }

    /** The subscription a confirmed route leaves, whatever was there before. */
    method Confirm(ch: Channel, route: Route, now: Millis)
      modifies this`subs
      ensures subs == old(subs)[ch := Subscription(route, false, now, false)]
    {
      if ch !in subs {
        subs := subs[ch := Subscription(route, false, now, false)];
      } else if subs[ch].temporary {
        subs := subs - {ch};
        subs := subs[ch := Subscription(route, false, now, false)];
      } else if subs[ch].route.generation != route.generation {
        subs := subs[ch := Subscription(route, false, now, false)];
      } else {
        subs := subs[ch := subs[ch].(route := route, lastOK := now, paused := false)];
      }
    }

    method Settle(ch: Channel, r: Round)
      requires ch in subs
      requires r.outcome.Resolved? ==> ch !in r.outcome.routes
      modifies this`subs
      ensures Get(subs, ch) == After(Some(old(subs)[ch]), ch, r, stale)
      ensures forall c :: c != ch ==> Get(subs, c) == Get(old(subs), c)
    {
      ghost var before := subs;
      if subs[ch].temporary {
        RefreshObservation(ch, r);
        forall c | c != ch
          ensures Get(subs, c) == Get(before, c)
        {
          assert c in subs - {ch} <==> c in before - {ch};
        }
      } else if r.outcome.WholeFailure? || ch in r.outcome.failed {
        KeepOrPause(ch, r.now);
      } else {
        subs := subs - {ch};
      }
    }

    method Reconcile(r: Round)
      modifies this
      ensures Converged(old(subs), subs, r, stale)
      ensures elig == Published(subs, r.outcome)
    {
      ghost var before := subs;
      var desired := if r.outcome.Resolved? then r.outcome.routes.Keys else {};
      var rest := desired;
      while rest != {}
        invariant rest <= desired
        invariant forall c :: c in desired && c !in rest ==> Get(subs, c) == After(Get(before, c), c, r, stale)
        invariant forall c :: c !in desired || c in rest ==> Get(subs, c) == Get(before, c)
        decreases rest
      {
        var ch :| ch in rest;
        rest := rest - {ch};
        Confirm(ch, r.outcome.routes[ch], r.now);
      }
      rest := subs.Keys - desired;
      while rest != {}
        invariant rest !! desired && rest <= subs.Keys
        invariant forall c :: c in rest ==> Get(subs, c) == Get(before, c)
        invariant forall c :: c !in rest ==> Get(subs, c) == After(Get(before, c), c, r, stale)
        decreases rest
      {
        var ch :| ch in rest;
        rest := rest - {ch};
        Settle(ch, r);
        assert forall c :: c in rest ==> Get(subs, c) == Get(before, c) && c in before;
      }
      match r.outcome
      case WholeFailure => elig := Publish(subs, true, {});
      case Resolved(_, failed) => elig := Publish(subs, false, failed);
    }
  }

  // -------------------------------------------------------------- whole runs

  /** What a session goes through: rounds, and between them observations begun, ended or
      resolved again before a read or a pump. */
  datatype Event =
    | RoundEnds(round: Round)
    | Observe(channel: Channel, route: Route, at: Millis)
    | Unobserve(channel: Channel)
    | Refresh(channel: Channel, resolved: Option<Route>, at: Millis)

  ghost predicate Follows(before: map<Channel, Subscription>, after: map<Channel, Subscription>, e: Event, stale: nat) {
    match e
    case RoundEnds(r) => Converged(before, after, r, stale)
    case Observe(ch, route, at) =>
      after == if ch in before then before else before[ch := Subscription(route, true, at, false)]
    case Unobserve(ch) =>
      after == if ch in before && before[ch].temporary then before - {ch} else before
    case Refresh(ch, route, at) =>
      after == if ch !in before || !before[ch].temporary then before
               else if route.None? then before - {ch}
               else before[ch := before[ch].(route := route.value, lastOK := at)]
  }

  /** A run of subscription tables, one after each event. */
  ghost predicate IsRun(tables: seq<map<Channel, Subscription>>, events: seq<Event>, stale: nat) {
    && |tables| == |events| + 1
    && tables[0] == map[]
    && forall i :: 0 <= i < |events| ==> Follows(tables[i], tables[i + 1], events[i], stale)
  }

  /** The rounds of a run, oldest first. */
  function Rounds(events: seq<Event>): seq<Round> {
    if events == [] then []
    else
      var rest := Rounds(events[..|events| - 1]);
      if events[|events| - 1].RoundEnds? then rest + [events[|events| - 1].round] else rest
  }

  ghost predicate ClockForward(rounds: seq<Round>) {
    forall i, j :: 0 <= i < j < |rounds| ==> rounds[i].now <= rounds[j].now
  }

  /** The standing of a channel, read off the rounds alone: when and where it was
      last confirmed, unless a later round confirmed its absence. */
  function Standing(rounds: seq<Round>, ch: Channel): Option<(Millis, Route)> {
    if rounds == [] then None
    else
      var r := rounds[|rounds| - 1];
      match r.outcome
      case WholeFailure => Standing(rounds[..|rounds| - 1], ch)
      case Resolved(routes, failed) =>
        if ch in routes then Some((r.now, routes[ch]))
        else if ch in failed then Standing(rounds[..|rounds| - 1], ch)
        else None
  }

  /** A member subscription is exactly a standing, paused once its lease ran out. */
  ghost predicate Stands(sub: Option<Subscription>, rounds: seq<Round>, ch: Channel, stale: nat) {
    match Standing(rounds, ch)
    case None => sub.None? || sub.value.temporary
    case Some((at, route)) =>
      && sub.Some? && !sub.value.temporary && sub.value.route == route && sub.value.lastOK == at
      && 0 < |rounds| && at <= rounds[|rounds| - 1].now
      && (sub.value.paused <==> at + stale <= rounds[|rounds| - 1].now)
  }

  lemma RoundKeepsStanding(sub: Option<Subscription>, rounds: seq<Round>, r: Round, ch: Channel, stale: nat)
    requires 0 < stale && Stands(sub, rounds, ch, stale) && ClockForward(rounds + [r])
    ensures Stands(After(sub, ch, r, stale), rounds + [r], ch, stale)
  {
    var all := rounds + [r];
    assert all[..|all| - 1] == rounds && all[|all| - 1] == r;
    if rounds != [] {
      assert all[|rounds| - 1] == rounds[|rounds| - 1];
    }
  }

  lemma {:induction false} RunStands(tables: seq<map<Channel, Subscription>>, events: seq<Event>, stale: nat, ch: Channel)
    requires 0 < stale && IsRun(tables, events, stale) && ClockForward(Rounds(events))
    ensures Stands(Get(tables[|events|], ch), Rounds(events), ch, stale)
    decreases |events|
  {
    if events != [] {
      var n := |events| - 1;
      var rounds := Rounds(events[..n]);
      assert events[n].RoundEnds? ==> Rounds(events)[..|rounds|] == rounds;
      assert forall i :: 0 <= i < |rounds| ==> rounds[i] == Rounds(events)[i];
      RunStands(tables[..n + 1], events[..n], stale, ch);
      assert Follows(tables[n], tables[n + 1], events[n], stale);
      if events[n].RoundEnds? {
        RoundKeepsStanding(Get(tables[n], ch), rounds, events[n].round, ch, stale);
      }
    }
  }

  /** The verdict on a channel as the rounds alone decide it. */
  function Entitled(rounds: seq<Round>, ch: Channel, stale: nat): Verdict
    requires rounds != []
  {
    var last := rounds[|rounds| - 1];
    match Standing(rounds, ch)
    case Some((at, route)) => if last.now < at + stale then Deliver(route) else Unavailable
    case None =>
      if last.outcome.WholeFailure? || ch in last.outcome.failed then Unavailable else Forbidden
  }

  /** Whatever mix of whole failures, per-channel failures, successes and
      observations came before, the published ledger judges every channel exactly
      as its history of rounds does. */
  lemma PublishedVerdict(tables: seq<map<Channel, Subscription>>, events: seq<Event>, stale: nat, ch: Channel)
    requires 0 < stale && IsRun(tables, events, stale) && ClockForward(Rounds(events))
    requires events != [] && events[|events| - 1].RoundEnds?
    ensures Judge(Published(tables[|events|], events[|events| - 1].round.outcome), ch) == Entitled(Rounds(events), ch, stale)
  {
    RunStands(tables, events, stale, ch);
    var rounds := Rounds(events);
    assert rounds[|rounds| - 1] == events[|events| - 1].round;
  }

  lemma EntitledForbiddenIff(rounds: seq<Round>, ch: Channel, stale: nat)
    requires rounds != []
    ensures var last := rounds[|rounds| - 1];
            Entitled(rounds, ch, stale).Forbidden? <==>
              last.outcome.Resolved? && ch !in last.outcome.routes && ch !in last.outcome.failed
  {
  }

  /** Over every run, a business frame judged by the published ledger is forbidden exactly
      when the last round succeeded as a whole and named the channel in neither list; and
      a route it is delivered on was confirmed by a round whose lease has not run out. */
  lemma ForbiddenMeansConfirmedAbsent(tables: seq<map<Channel, Subscription>>, events: seq<Event>, stale: nat, ch: Channel)
    requires 0 < stale && IsRun(tables, events, stale) && ClockForward(Rounds(events))
    requires events != [] && events[|events| - 1].RoundEnds?
    ensures var last := events[|events| - 1].round;
            var verdict := Judge(Published(tables[|events|], last.outcome), ch);
            && (verdict.Forbidden? <==>
                  last.outcome.Resolved? && ch !in last.outcome.routes && ch !in last.outcome.failed)
            && (verdict.Deliver? ==>
                  exists i :: 0 <= i < |Rounds(events)| && Confirms(Rounds(events)[i], ch, verdict.route) &&
                    last.now < Rounds(events)[i].now + stale)
  {
    PublishedVerdict(tables, events, stale, ch);
    var rounds := Rounds(events);
    assert rounds[|rounds| - 1] == events[|events| - 1].round;
    EntitledForbiddenIff(rounds, ch, stale);
    if Standing(rounds, ch).Some? {
      var i := StandingIsConfirmed(rounds, ch);
    }
  }

  predicate Confirms(r: Round, ch: Channel, route: Route) {
    r.outcome.Resolved? && ch in r.outcome.routes && r.outcome.routes[ch] == route
  }

  lemma {:induction false} StandingIsConfirmed(rounds: seq<Round>, ch: Channel) returns (i: nat)
    requires Standing(rounds, ch).Some?
    ensures i < |rounds| && rounds[i].now == Standing(rounds, ch).value.0
    ensures Confirms(rounds[i], ch, Standing(rounds, ch).value.1)
  {
    var last := rounds[|rounds| - 1];
    if last.outcome.Resolved? && ch in last.outcome.routes {
      i := |rounds| - 1;
    } else {
      i := StandingIsConfirmed(rounds[..|rounds| - 1], ch);
    }
  }

  /** The temporary observation of one channel, read off its events alone: the route last
      granted and when.  It begins only where no membership stands, ends when asked to, when
      a round or refresh grants it no longer, and when a round confirms a membership. */
  function Observing(events: seq<Event>, ch: Channel): Option<(Route, Millis)> {
    if events == [] then None
    else
      var before := events[..|events| - 1];
      var was := Observing(before, ch);
      match events[|events| - 1]
      case RoundEnds(r) =>
        if was.Some? && Standing(Rounds(events), ch).None? && ch in r.observable then Some((r.observable[ch], r.now)) else None
      case Observe(c, route, at) =>
        if c == ch && was.None? && Standing(Rounds(before), ch).None? then Some((route, at)) else was
      case Unobserve(c) => if c == ch then None else was
      case Refresh(c, resolved, at) =>
        if c != ch || was.None? then was
        else match resolved
          case None => None
          case Some(route) => Some((route, at))
  }

  /** A temporary subscription is exactly an observation. */
  ghost predicate Observes(sub: Option<Subscription>, o: Option<(Route, Millis)>) {
    match o
    case None => sub.None? || !sub.value.temporary
    case Some((route, at)) => sub == Some(Subscription(route, true, at, false))
  }

  lemma StepObserves(before: map<Channel, Subscription>, after: map<Channel, Subscription>, events: seq<Event>, stale: nat, ch: Channel)
    requires events != [] && Follows(before, after, events[|events| - 1], stale)
    requires Stands(Get(before, ch), Rounds(events[..|events| - 1]), ch, stale)
    requires Stands(Get(after, ch), Rounds(events), ch, stale)
    requires Observes(Get(before, ch), Observing(events[..|events| - 1], ch))
    ensures Observes(Get(after, ch), Observing(events, ch))
  {
    var e := events[|events| - 1];
    if e.RoundEnds? {
      assert Get(after, ch) == After(Get(before, ch), ch, e.round, stale);
    }
  }

  /** Over every run of rounds, observations and refreshes, a channel's temporary subscription
      is exactly what its own events grant, so failures and leases never touch it. */
  lemma {:induction false} RunObserves(tables: seq<map<Channel, Subscription>>, events: seq<Event>, stale: nat, ch: Channel)
    requires 0 < stale && IsRun(tables, events, stale) && ClockForward(Rounds(events))
    ensures Observes(Get(tables[|events|], ch), Observing(events, ch))
    decreases |events|
  {
    if events != [] {
      var n := |events| - 1;
      PrefixRuns(tables, events, stale);
      RunObserves(tables[..n + 1], events[..n], stale, ch);
      RunStands(tables[..n + 1], events[..n], stale, ch);
      RunStands(tables, events, stale, ch);
      StepObserves(tables[n], tables[n + 1], events, stale, ch);
    }
  }

  lemma PrefixRuns(tables: seq<map<Channel, Subscription>>, events: seq<Event>, stale: nat)
    requires IsRun(tables, events, stale) && events != [] && ClockForward(Rounds(events))
    ensures IsRun(tables[..|events|], events[..|events| - 1], stale) && ClockForward(Rounds(events[..|events| - 1]))
  {
    var n := |events| - 1;
    var rounds := Rounds(events[..n]);
    assert events[n].RoundEnds? ==> Rounds(events)[..|rounds|] == rounds;
    assert forall i :: 0 <= i < |rounds| ==> rounds[i] == Rounds(events)[i];
    forall i | 0 <= i < n
      ensures Follows(tables[..n + 1][i], tables[..n + 1][i + 1], events[..n][i], stale)
    {
      assert Follows(tables[i], tables[i + 1], events[i], stale);
    }
  }
}
