/** The compartment plan: the host answers a pull with a complete snapshot or stays
    silent, and the device retires what the snapshot does not name. */
module PlanPull {
  import opened Options

  type Channel = string
  type Nonce = nat
  type CellId = nat

  /** What one channel's binding query came to within the round's budget. */
  datatype Query = NoMembrane | Failed | Judged(bound: bool)

  datatype Reply = Reply(serve: seq<Channel>, unknown: seq<Channel>)

  function QueryOf(queries: map<Channel, Query>, ch: Channel): Query {
    if ch in queries then queries[ch] else NoMembrane
  }

  /** The channels judged bound, and those nobody could judge. */
  predicate Bound(queries: map<Channel, Query>, ch: Channel) { QueryOf(queries, ch) == Judged(true) }

  predicate Undecided(queries: map<Channel, Query>, ch: Channel) { !QueryOf(queries, ch).Judged? }

  ghost predicate Answers(present: seq<Channel>, queries: map<Channel, Query>, reply: Reply) {
    && (forall ch :: ch in reply.serve <==> ch in present && Bound(queries, ch))
    && (forall ch :: ch in reply.unknown <==> ch in present && Undecided(queries, ch))
  }

  method AnswerCompartmentPlan(current: bool, present: Option<seq<Channel>>, queries: map<Channel, Query>)
    returns (reply: Option<Reply>)
    ensures reply.Some? <==> current && present.Some?
    ensures reply.Some? ==> Answers(present.value, queries, reply.value)
  {
    if !current || present.None? {
      return None;
    }
    var serve, unknown := [], [];
    for i := 0 to |present.value|
      invariant Answers(present.value[..i], queries, Reply(serve, unknown))
    {
      var ch := present.value[i];
      assert present.value[..i + 1] == present.value[..i] + [ch];
      match QueryOf(queries, ch)
      case NoMembrane => unknown := unknown + [ch];
      case Failed => unknown := unknown + [ch];
      case Judged(bound) => if bound { serve := serve + [ch]; }
    }
    assert present.value[..|present.value|] == present.value;
    reply := Some(Reply(serve, unknown));
  }

  function Named(reply: Reply): set<Channel> {
    set ch | ch in reply.serve + reply.unknown
  }

  /** The exact cells a snapshot condemns. */
  function Stale(cells: map<Channel, CellId>, reply: Reply): map<Channel, CellId> {
    map ch | ch in cells && ch !in Named(reply) :: cells[ch]
  }

  method ConvergeToPlan(cells: map<Channel, CellId>, reply: Reply) returns (stale: map<Channel, CellId>)
    ensures stale == Stale(cells, reply)
  {
    var named: set<Channel> := {};
    for i := 0 to |reply.serve|
      invariant named == set ch | ch in reply.serve[..i]
    {
      assert reply.serve[..i + 1] == reply.serve[..i] + [reply.serve[i]];
      named := named + {reply.serve[i]};
    }
    assert reply.serve[..|reply.serve|] == reply.serve;
    for i := 0 to |reply.unknown|
      invariant named == set ch | ch in reply.serve + reply.unknown[..i]
    {
      assert reply.unknown[..i + 1] == reply.unknown[..i] + [reply.unknown[i]];
      named := named + {reply.unknown[i]};
    }
    assert reply.unknown[..|reply.unknown|] == reply.unknown;
    stale := map[];
    var rest := cells.Keys;
    while rest != {}
      invariant rest <= cells.Keys
      invariant stale == map ch | ch in cells && ch !in rest && ch !in named :: cells[ch]
      decreases rest
    {
      var ch :| ch in rest;
      rest := rest - {ch};
      if ch !in named {
        stale := stale[ch := cells[ch]];
      }
    }
  }

  // ------------------------------------------------------------- whole rounds

  /** What the host saw when it answered: whether the asking carrier was current, the
      channels enumerated (None when the enumeration failed), each query's outcome. */
  datatype Snapshot = Snapshot(current: bool, present: Option<seq<Channel>>, queries: map<Channel, Query>)

  predicate Spoken(snap: Snapshot) { snap.current && snap.present.Some? }

  /** A cell the device is about to close, and the pull that condemned it. */
  datatype Order = Order(channel: Channel, cell: CellId, nonce: Nonce)

  /** `replies` are on the wire; `delivered` sit in their waiter's channel; `checked`
      orders passed the exactness check; `closings` is the log of closes begun, by
      the order that began them and the cell it actually reached. */
  datatype System = System(
    closed: bool, cells: map<Channel, CellId>, used: set<CellId>,
    pulled: set<Nonce>, waiting: set<Nonce>, judged: map<Nonce, Snapshot>,
    replies: map<Nonce, Reply>, delivered: map<Nonce, Reply>,
    orders: set<Order>, checked: set<Order>, closings: seq<(Order, CellId)>)

  const Start := System(false, map[], {}, {}, {}, map[], map[], map[], {}, {}, [])

  datatype Event =
    | Pull(nonce: Nonce)
    | Answer(nonce: Nonce, snapshot: Snapshot, reply: Reply)
    | Deliver(nonce: Nonce)
    | GiveUp(nonce: Nonce)
    | Converge(nonce: Nonce)
    | CheckExact(order: Order)
    | CloseAt(order: Order)
    | Build(channel: Channel, cell: CellId)
    | Forget(channel: Channel)
    | Shutdown

  ghost predicate Enabled(s: System, e: Event) {
    match e
    case Pull(n) => n !in s.pulled
    case Answer(n, snap, reply) =>
      n in s.pulled && n !in s.judged && (snap.present.Some? ==> Answers(snap.present.value, snap.queries, reply))
    case Deliver(n) => n in s.replies
    case GiveUp(n) => n in s.pulled
    case Converge(n) => n in s.delivered
    case CheckExact(o) => o in s.orders
    case CloseAt(o) => o in s.checked
    case Build(ch, c) => ch !in s.cells && c !in s.used
    case Forget(ch) => ch in s.cells
    case Shutdown => true
  }

  function Step(s: System, e: Event): System
    requires Enabled(s, e)
  {
    match e
    case Pull(n) => s.(pulled := s.pulled + {n}, waiting := s.waiting + {n})
    case Answer(n, snap, reply) =>
      s.(judged := s.judged[n := snap], replies := if Spoken(snap) then s.replies[n := reply] else s.replies)
    case Deliver(n) =>
      if n in s.waiting then s.(waiting := s.waiting - {n}, delivered := s.delivered[n := s.replies[n]]) else s
    case GiveUp(n) => s.(waiting := s.waiting - {n}, delivered := s.delivered - {n})
    case Converge(n) =>
      var stale := if s.closed then map[] else Stale(s.cells, s.delivered[n]);
      s.(delivered := s.delivered - {n},
         orders := s.orders + set ch | ch in stale :: Order(ch, stale[ch], n))
    case CheckExact(o) =>
      var still := !s.closed && o.channel in s.cells && s.cells[o.channel] == o.cell;
      s.(orders := s.orders - {o}, checked := if still then s.checked + {o} else s.checked)
    case CloseAt(o) =>
      // The close looks the coordinate up again.
      s.(checked := s.checked - {o},
         closings := if !s.closed && o.channel in s.cells then s.closings + [(o, s.cells[o.channel])] else s.closings)
    case Build(ch, c) => s.(cells := s.cells[ch := c], used := s.used + {c})
    case Forget(ch) => s.(cells := s.cells - {ch})
    case Shutdown => s.(closed := true)
  }

  /** The one licence to close: the channel was not enumerated, or was judged unbound. */
  ghost predicate Licensed(judged: map<Nonce, Snapshot>, n: Nonce, ch: Channel) {
    && n in judged
    && Spoken(judged[n])
    && (ch !in judged[n].present.value || QueryOf(judged[n].queries, ch) == Judged(false))
  }

  ghost predicate Truthful(judged: map<Nonce, Snapshot>, replies: map<Nonce, Reply>) {
    forall n :: n in replies ==>
      n in judged && Spoken(judged[n]) && Answers(judged[n].present.value, judged[n].queries, replies[n])
  }

  ghost predicate Answered(s: System) {
    && Truthful(s.judged, s.replies) && Truthful(s.judged, s.delivered)
    && s.judged.Keys <= s.pulled && s.waiting <= s.pulled && s.delivered.Keys <= s.pulled
  }

  ghost predicate AllLicensed(s: System) {
    && (forall o :: o in s.orders || o in s.checked ==> Licensed(s.judged, o.nonce, o.channel))
    && (forall i :: 0 <= i < |s.closings| ==> Licensed(s.judged, s.closings[i].0.nonce, s.closings[i].0.channel))
  }

  ghost predicate Inv(s: System) {
    && Answered(s) && AllLicensed(s)
    && (forall ch :: ch in s.cells ==> s.cells[ch] in s.used)
  }

  lemma StepKeepsAnswered(s: System, e: Event)
    requires Answered(s) && Enabled(s, e)
    ensures Answered(Step(s, e))
  {
    match e
    case Answer(_, _, _) =>
    case Deliver(_) =>
    case _ =>
  }

  /** What a truthful reply leaves unnamed may be closed. */
  lemma StaleIsLicensed(s: System, n: Nonce, ch: Channel)
    requires Answered(s) && n in s.delivered && ch in Stale(s.cells, s.delivered[n])
    ensures Licensed(s.judged, n, ch)
  {
    var reply := s.delivered[n];
    assert ch !in reply.serve + reply.unknown;
    assert ch !in reply.serve && ch !in reply.unknown;
  }

  /** And what may be closed is left unnamed. */
  lemma LicensedIsStale(s: System, n: Nonce, ch: Channel)
    requires Answered(s) && n in s.delivered && ch in s.cells && Licensed(s.judged, n, ch)
    ensures ch in Stale(s.cells, s.delivered[n]) && Stale(s.cells, s.delivered[n])[ch] == s.cells[ch]
  {
    var reply := s.delivered[n];
    assert ch !in reply.serve && ch !in reply.unknown;
    assert ch !in reply.serve + reply.unknown;
  }

  lemma StepKeepsLicensed(s: System, e: Event)
    requires Answered(s) && AllLicensed(s) && Enabled(s, e)
    ensures AllLicensed(Step(s, e))
  {
    match e
    case Answer(_, _, _) =>
    case Converge(n) =>
      forall ch | ch in Stale(s.cells, s.delivered[n])
        ensures Licensed(s.judged, n, ch)
      {
        StaleIsLicensed(s, n, ch);
      }
    case _ =>
  }

  lemma StepKeepsInv(s: System, e: Event)
    requires Inv(s) && Enabled(s, e)
    ensures Inv(Step(s, e))
  {
    StepKeepsAnswered(s, e);
    StepKeepsLicensed(s, e);
  }

  ghost predicate Runnable(s: System, events: seq<Event>)
    decreases |events|
  {
    events == [] || (Enabled(s, events[0]) && Runnable(Step(s, events[0]), events[1..]))
  }

  ghost function Run(s: System, events: seq<Event>): System
    requires Runnable(s, events)
    decreases |events|
  {
    if events == [] then s else Run(Step(s, events[0]), events[1..])
  }

  lemma {:induction false} RunKeepsInv(s: System, events: seq<Event>)
    requires Inv(s) && Runnable(s, events)
    ensures Inv(Run(s, events))
    decreases |events|
  {
    if events != [] {
      StepKeepsInv(s, events[0]);
      RunKeepsInv(Step(s, events[0]), events[1..]);
    }
  }

  /** Over every run of pulls, answers, losses and timeouts: the device begins a
      close only under a snapshot that did not enumerate the channel or judged it
      unbound.  Errors, timeouts and missing membranes never destroy anything. */
  lemma ClosesOnlyUnderLicence(events: seq<Event>)
    requires Runnable(Start, events)
    ensures var s := Run(Start, events);
            forall i :: 0 <= i < |s.closings| ==> Licensed(s.judged, s.closings[i].0.nonce, s.closings[i].0.channel)
  {
    RunKeepsInv(Start, events);
  }

  /** And nothing licensed is spared: over every run, converging on a delivered reply orders
      closed exactly the cells whose channel its snapshot did not enumerate or judged
      unbound, unless the manager shut down. */
  lemma ConvergeIsExact(events: seq<Event>, n: Nonce)
    requires Runnable(Start, events) && n in Run(Start, events).delivered && !Run(Start, events).closed
    ensures var s := Run(Start, events);
            var t := Step(s, Converge(n));
            && n in s.judged && Spoken(s.judged[n])
            && (forall o :: o in t.orders && o !in s.orders ==>
                  o.nonce == n && Get(s.cells, o.channel) == Some(o.cell) && Licensed(s.judged, n, o.channel))
            && (forall ch :: ch in s.cells && Licensed(s.judged, n, ch) ==> Order(ch, s.cells[ch], n) in t.orders)
            && s.orders <= t.orders
  {
    RunKeepsInv(Start, events);
    var s := Run(Start, events);
    var stale := Stale(s.cells, s.delivered[n]);
    forall ch | ch in stale
      ensures Licensed(s.judged, n, ch)
    {
      StaleIsLicensed(s, n, ch);
    }
    forall ch | ch in s.cells && Licensed(s.judged, n, ch)
      ensures Order(ch, s.cells[ch], n) in Step(s, Converge(n)).orders
    {
      LicensedIsStale(s, n, ch);
      assert ch in stale;
    }
  }

  /** Over every run, an answer from a carrier that was not current, or whose
      enumeration failed, never reached the wire and never closed anything. */
  lemma SilenceClosesNothing(events: seq<Event>, n: Nonce)
    requires Runnable(Start, events) && n in Run(Start, events).judged && !Spoken(Run(Start, events).judged[n])
    ensures var s := Run(Start, events);
            && n !in s.replies && n !in s.delivered
            && (forall o :: o in s.orders || o in s.checked ==> o.nonce != n)
            && forall i :: 0 <= i < |s.closings| ==> s.closings[i].0.nonce != n
  {
    RunKeepsInv(Start, events);
  }

  /** The work one pull still has in the system. */
  ghost predicate Only(s: System, orders: set<Order>, closed: nat, n: Nonce) {
    && n in s.pulled && n !in s.waiting && n !in s.delivered && closed <= |s.closings|
    && (forall o :: (o in s.orders || o in s.checked) && o.nonce == n ==> o in orders)
    && (forall i :: closed <= i < |s.closings| && s.closings[i].0.nonce == n ==> s.closings[i].0 in orders)
  }

  lemma StepAddsNothing(s: System, e: Event, orders: set<Order>, closed: nat, n: Nonce)
    requires Enabled(s, e) && Only(s, orders, closed, n)
    ensures Only(Step(s, e), orders, closed, n)
  {
    match e
    case Converge(_) =>
    case CloseAt(_) =>
    case _ =>
  }

  lemma {:induction false} LateAddsNothing(s: System, events: seq<Event>, orders: set<Order>, closed: nat, n: Nonce)
    requires Runnable(s, events) && Only(s, orders, closed, n)
    ensures Only(Run(s, events), orders, closed, n)
    decreases |events|
  {
    if events != [] {
      StepAddsNothing(s, events[0], orders, closed, n);
      LateAddsNothing(Step(s, events[0]), events[1..], orders, closed, n);
    }
  }

  /** A pull given up on before its reply came never condemns anything afterwards,
      whatever arrives later under its nonce. */
  lemma LatePullIsInert(before: seq<Event>, n: Nonce, after: seq<Event>)
    requires Runnable(Start, before) && Enabled(Run(Start, before), GiveUp(n))
    requires Runnable(Step(Run(Start, before), GiveUp(n)), after)
    requires forall o :: o in Run(Start, before).orders || o in Run(Start, before).checked ==> o.nonce != n
    ensures var s, t := Run(Start, before), Run(Step(Run(Start, before), GiveUp(n)), after);
            && (forall o :: o in t.orders || o in t.checked ==> o.nonce != n)
            && forall i :: |s.closings| <= i < |t.closings| ==> t.closings[i].0.nonce != n
  {
    var s := Run(Start, before);
    LateAddsNothing(Step(s, GiveUp(n)), after, {}, |s.closings|, n);
  }

  // --------------------------------------------------------- exact closes

  function Get(cells: map<Channel, CellId>, ch: Channel): Option<CellId> {
    if ch in cells then Some(cells[ch]) else None
  }

  /** Who is at a coordinate, read off the events alone. */
  function Occupant(was: Option<CellId>, events: seq<Event>, ch: Channel): Option<CellId>
    decreases |events|
  {
    if events == [] then was
    else
      var next := match events[0]
        case Build(c, cell) => if c == ch then Some(cell) else was
        case Forget(c) => if c == ch then None else was
        case _ => was;
      Occupant(next, events[1..], ch)
  }

  lemma {:induction false} OccupantIsThere(s: System, events: seq<Event>, ch: Channel)
    requires Runnable(s, events)
    ensures Get(Run(s, events).cells, ch) == Occupant(Get(s.cells, ch), events, ch)
    decreases |events|
  {
    if events != [] {
      OccupantIsThere(Step(s, events[0]), events[1..], ch);
    }
  }

  /** A used cell that is not at the coordinate never comes back to it. */
  lemma {:induction false} GoneStaysGone(s: System, events: seq<Event>, ch: Channel, cell: CellId)
    requires Runnable(s, events) && cell in s.used && Get(s.cells, ch) != Some(cell)
    ensures Get(Run(s, events).cells, ch) != Some(cell)
    decreases |events|
  {
    if events != [] {
      GoneStaysGone(Step(s, events[0]), events[1..], ch, cell);
    }
  }

  lemma {:induction false} StaysUntilForgotten(s: System, events: seq<Event>, ch: Channel, cell: CellId)
    requires Runnable(s, events) && cell in s.used && Get(s.cells, ch) == Some(cell)
    ensures Get(Run(s, events).cells, ch) == Some(cell) <==> Forget(ch) !in events
    decreases |events|
  {
    if events != [] {
      var next := Step(s, events[0]);
      assert events == [events[0]] + events[1..];
      if events[0] == Forget(ch) {
        GoneStaysGone(next, events[1..], ch, cell);
      } else {
        StaysUntilForgotten(next, events[1..], ch, cell);
      }
    }
  }

  /** What a close reaches.  In any run, between the exactness check that passed and the
      close that looks the coordinate up again, everything hangs on whether the
      coordinate was forgotten: the condemned cell is closed if and only if it was not;
      a successor is closed if and only if it was forgotten and built again; and nothing
      is closed if it was forgotten and left empty, or the manager shut down. */
  lemma CloseReaches(before: seq<Event>, o: Order, between: seq<Event>)
    requires Runnable(Start, before) && Enabled(Run(Start, before), CheckExact(o))
    requires !Run(Start, before).closed && Get(Run(Start, before).cells, o.channel) == Some(o.cell)
    requires var checked := Step(Run(Start, before), CheckExact(o));
             Runnable(checked, between) && Enabled(Run(checked, between), CloseAt(o))
    ensures var checked := Step(Run(Start, before), CheckExact(o));
            var s := Run(checked, between);
            var there := Occupant(Some(o.cell), between, o.channel);
            && Step(s, CloseAt(o)).closings ==
               s.closings + (if !s.closed && there.Some? then [(o, there.value)] else [])
            && (there == Some(o.cell) <==> Forget(o.channel) !in between)
  {
    RunKeepsInv(Start, before);
    var checked := Step(Run(Start, before), CheckExact(o));
    assert Get(checked.cells, o.channel) == Some(o.cell);
    OccupantIsThere(checked, between, o.channel);
    StaysUntilForgotten(checked, between, o.channel, o.cell);
  }

  lemma RunFirst(s: System, e: Event, rest: seq<Event>)
    requires Enabled(s, e) && Runnable(Step(s, e), rest)
    ensures Runnable(s, [e] + rest) && Run(s, [e] + rest) == Run(Step(s, e), rest)
  {
    assert ([e] + rest)[1..] == rest;
  }

  /** A run that condemns a cell: pulled, answered with nothing enumerated, converged. */
  lemma CellIsCondemned(ch: Channel, cell: CellId, n: Nonce) returns (events: seq<Event>)
    ensures Runnable(Start, events)
    ensures var s := Run(Start, events);
            && s.cells == map[ch := cell] && s.used == {cell} && !s.closed && s.checked == {} && s.closings == []
            && s.orders == {Order(ch, cell, n)}
  {
    var answer := Answer(n, Snapshot(true, Some([]), map[]), Reply([], []));
    var s1 := Step(Start, Build(ch, cell));
    var s2 := Step(s1, Pull(n));
    var s3 := Step(s2, answer);
    var s4 := Step(s3, Deliver(n));
    var s5 := Step(s4, Converge(n));
    assert s5.orders == {Order(ch, cell, n)};
    events := [];
    RunFirst(s4, Converge(n), events);
    events := [Converge(n)] + events;
    RunFirst(s3, Deliver(n), events);
    events := [Deliver(n)] + events;
    RunFirst(s2, answer, events);
    events := [answer] + events;
    RunFirst(s1, Pull(n), events);
    events := [Pull(n)] + events;
    RunFirst(Start, Build(ch, cell), events);
    events := [Build(ch, cell)] + events;
  }

  /** So from the start, for any channel and any two cells, there is a run in which the
      first is condemned and the second, which no snapshot spoke about, is closed. */
  lemma SuccessorCanBeClosed(ch: Channel, cell: CellId, successor: CellId, n: Nonce)
    returns (before: seq<Event>, between: seq<Event>)
    requires cell != successor
    ensures Runnable(Start, before)
    ensures var o := Order(ch, cell, n);
            && Enabled(Run(Start, before), CheckExact(o))
            && var checked := Step(Run(Start, before), CheckExact(o));
               && Runnable(checked, between) && Enabled(Run(checked, between), CloseAt(o))
               && Step(Run(checked, between), CloseAt(o)).closings == [(o, successor)]
  {
    before := CellIsCondemned(ch, cell, n);
    var o := Order(ch, cell, n);
    var checked := Step(Run(Start, before), CheckExact(o));
    var gone := Step(checked, Forget(ch));
    RunFirst(gone, Build(ch, successor), []);
    RunFirst(checked, Forget(ch), [Build(ch, successor)] + []);
    between := [Forget(ch)] + ([Build(ch, successor)] + []);
  }
}
