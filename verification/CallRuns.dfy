/** Every interleaving of matches, timeouts, cancels, forgets and split-step waits
    over the call ledger, against a reference that knows no locks or channels: the
    first of final, self-close or withdrawal decides a request. */
module CallRuns {
  import opened Options
  import opened CallLedger

  type WaiterId = nat

  datatype Answer = Answered(tag: Tag) | CallClosed | GaveUp

  /** Where one wait stands: parked on its entry's channel, holding a final it is
      about to delete the entry for, or returned. */
  datatype Phase = Parked(id: Id) | Holding(id: Id, tag: Tag) | Returned(id: Id, answer: Answer)

  /** `owed` are self-closes decided but not yet written; `written` is the pen's log. */
  datatype System = System(ledger: Ledger, waits: map<WaiterId, Phase>, owed: set<Id>, written: seq<Id>, fault: bool)

  const Start := System(Ledger(map[], {}), map[], {}, [], false)

  datatype Event =
    | Register(id: Id)
    | Forget(id: Id)
    | Match(response: Response)
    | SelfClose(id: Id)
    | WriteSelfClose(id: Id)
    | WaitStart(waiter: WaiterId, id: Id)
    | WaitReceive(waiter: WaiterId)
    | WaitConsume(waiter: WaiterId)
    | WaitGiveUp(waiter: WaiterId)

  /** An event can happen: ids and waits are fresh (no wait names an
      id before it is minted), and a wait follows its own steps. */
  predicate Enabled(s: System, e: Event) {
    match e
    case Register(id) => id !in s.ledger.entries && forall w :: w in s.waits ==> s.waits[w].id != id
    case WriteSelfClose(id) => id in s.owed
    case WaitStart(w, _) => w !in s.waits
    case WaitReceive(w) => w in s.waits && s.waits[w].Parked? && s.waits[w].id in s.ledger.entries
    case WaitConsume(w) => w in s.waits && s.waits[w].Holding?
    case WaitGiveUp(w) => w in s.waits && s.waits[w].Parked?
    case _ => true
  }

  function Step(s: System, e: Event): System
    requires Enabled(s, e)
  {
    match e
    case Register(id) => s.(ledger := Registered(s.ledger, id))
    case Forget(id) => s.(ledger := Forgotten(s.ledger, id))
    case Match(r) =>
      var (ledger, verdict) := Matched(s.ledger, r);
      s.(ledger := ledger, fault := s.fault || verdict == SentOnClosed)
    case SelfClose(id) =>
      // Closing an already closed channel would be the other channel fault.
      var (ledger, owes) := SelfClosed(s.ledger, id);
      var twice := owes && s.ledger.entries[id].closed;
      s.(ledger := ledger, owed := if owes then s.owed + {id} else s.owed, fault := s.fault || twice)
    case WriteSelfClose(id) => s.(owed := s.owed - {id}, written := s.written + [id])
    case WaitStart(w, id) =>
      s.(waits := s.waits[w := if id in s.ledger.live && id in s.ledger.entries then Parked(id) else Returned(id, CallClosed)])
    case WaitReceive(w) =>
      var id := s.waits[w].id;
      var (ledger, got) := Receive(s.ledger, id);
      (match got
       case Final(tag) => s.(ledger := ledger, waits := s.waits[w := Holding(id, tag)])
       case CloseSignal => s.(waits := s.waits[w := Returned(id, CallClosed)])
       case Blocked => s)
    case WaitConsume(w) =>
      var Holding(id, tag) := s.waits[w];
      s.(ledger := Consumed(s.ledger, id), waits := s.waits[w := Returned(id, Answered(tag))])
    case WaitGiveUp(w) =>
      var id := s.waits[w].id;
      var (ledger, tag) := ClaimedBuffered(s.ledger, id);
      s.(ledger := ledger, waits := s.waits[w := Returned(id, if tag.Some? then Answered(tag.value) else GaveUp)])
  }

  // --------------------------------------------------------------- reference

  datatype Outcome = Open | Finished(tag: Tag) | Closed | Withdrawn

  /** What happened to one request, and the progress shown for it. */
  datatype Fate = Fate(outcome: Outcome, progress: seq<Tag>)

  /** The first decisive event wins; waits decide nothing. */
  function Decide(fates: map<Id, Fate>, e: Event): map<Id, Fate> {
    match e
    case Register(id) => fates[id := Fate(Open, [])]
    case Forget(id) => Settle(fates, id, Withdrawn)
    case Match(r) =>
      if r.isFinal then Settle(fates, r.parent, Finished(r.tag))
      else if r.parent in fates && fates[r.parent].outcome.Open? then
        fates[r.parent := fates[r.parent].(progress := fates[r.parent].progress + [r.tag])]
      else fates
    case SelfClose(id) => Settle(fates, id, Closed)
    case _ => fates
  }

  function Settle(fates: map<Id, Fate>, id: Id, outcome: Outcome): map<Id, Fate> {
    if id in fates && fates[id].outcome.Open? then fates[id := fates[id].(outcome := outcome)] else fates
  }

  // --------------------------------------------------------------- invariant

  /** One row agrees with its fate. */
  ghost predicate RowAgrees(l: Ledger, id: Id, fate: Fate)
    requires id in l.entries
  {
    var e := l.entries[id];
    && e.progress == fate.progress
    && match fate.outcome
       case Open => id in l.live && !e.final && !e.closed && e.buffer.None? && !e.progressClosed
       case Finished(_) => e.final && !e.closed && e.progressClosed
       case Closed => id !in l.live && !e.final && e.closed && e.buffer.None? && e.progressClosed
       case Withdrawn => id !in l.live && !e.final && !e.closed && e.buffer.None? && e.progressClosed
  }

  ghost predicate RowsAgree(l: Ledger, fates: map<Id, Fate>) {
    && l.entries.Keys == fates.Keys
    && l.live <= l.entries.Keys
    && forall id :: id in fates ==> RowAgrees(l, id, fates[id])
  }

  ghost predicate Settled(fates: map<Id, Fate>, id: Id) {
    id in fates ==> !fates[id].outcome.Open?
  }

  /** A wait's phase is explained by its request's fate. */
  ghost predicate WaitAgrees(fates: map<Id, Fate>, p: Phase) {
    match p
    case Parked(id) => id in fates
    case Holding(id, _) => id in fates && fates[id].outcome.Finished?
    case Returned(id, Answered(_)) => id in fates && fates[id].outcome.Finished?
    case Returned(id, CallClosed) => Settled(fates, id)
    case Returned(_, GaveUp) => true
  }

  /** A marked entry still in the table has its final in the channel or in the
      hands of a wait about to delete it. */
  ghost predicate Held(s: System, id: Id) {
    exists w :: w in s.waits && s.waits[w].Holding? && s.waits[w].id == id
  }

  ghost predicate NeverStranded(s: System) {
    forall id :: id in s.ledger.live && id in s.ledger.entries && s.ledger.entries[id].final ==>
      s.ledger.entries[id].buffer.Some? || Held(s, id)
  }

  /** Self-closes owed and written are exactly those decided, each once. */
  ghost predicate ClosesAgree(s: System, fates: map<Id, Fate>) {
    forall id :: CloseAgrees(s, fates, id)
  }

  ghost predicate Inv(s: System, fates: map<Id, Fate>) {
    && !s.fault
    && RowsAgree(s.ledger, fates)
    && (forall w :: w in s.waits ==> WaitAgrees(fates, s.waits[w]))
    && NeverStranded(s)
    && ClosesAgree(s, fates)
  }

  lemma StepKeepsRow(s: System, fates: map<Id, Fate>, e: Event, id: Id)
    requires id in fates && id in s.ledger.entries && RowAgrees(s.ledger, id, fates[id]) && Enabled(s, e)
    requires e.WaitConsume? ==> WaitAgrees(fates, s.waits[e.waiter])
    ensures id in Decide(fates, e)
    ensures id in Step(s, e).ledger.entries && RowAgrees(Step(s, e).ledger, id, Decide(fates, e)[id])
  {
    match e
    case Register(_) =>
    case Forget(_) =>
    case Match(_) =>
    case SelfClose(_) =>
    case _ =>
  }

  lemma StepKeepsKeys(s: System, fates: map<Id, Fate>, e: Event)
    requires s.ledger.entries.Keys == fates.Keys && s.ledger.live <= s.ledger.entries.Keys && Enabled(s, e)
    ensures Step(s, e).ledger.entries.Keys == Decide(fates, e).Keys
    ensures Step(s, e).ledger.live <= Step(s, e).ledger.entries.Keys
  {
    match e
    case Register(_) =>
    case Forget(_) =>
    case Match(_) =>
    case SelfClose(_) =>
    case _ =>
  }

  lemma StepKeepsRows(s: System, fates: map<Id, Fate>, e: Event)
    requires Inv(s, fates) && Enabled(s, e)
    ensures RowsAgree(Step(s, e).ledger, Decide(fates, e))
    ensures !Step(s, e).fault
  {
    StepKeepsKeys(s, fates, e);
    forall id | id in Decide(fates, e)
      ensures RowAgrees(Step(s, e).ledger, id, Decide(fates, e)[id])
    {
      if id in fates {
        StepKeepsRow(s, fates, e, id);
      }
    }
    if e.Match? && e.response.parent in fates {
      assert RowAgrees(s.ledger, e.response.parent, fates[e.response.parent]);
    }
    if e.SelfClose? && e.id in fates {
      assert RowAgrees(s.ledger, e.id, fates[e.id]);
    }
  }

  lemma StepKeepsWaits(s: System, fates: map<Id, Fate>, e: Event)
    requires Inv(s, fates) && Enabled(s, e)
    ensures forall w :: w in Step(s, e).waits ==> WaitAgrees(Decide(fates, e), Step(s, e).waits[w])
  {
    var t, next := Step(s, e), Decide(fates, e);
    forall w | w in t.waits
      ensures WaitAgrees(next, t.waits[w])
    {
      if w in s.waits {
        assert WaitAgrees(fates, s.waits[w]);
      }
    }
  }

  lemma StepNeverStrands(s: System, fates: map<Id, Fate>, e: Event)
    requires Inv(s, fates) && Enabled(s, e)
    ensures NeverStranded(Step(s, e))
  {
    var t := Step(s, e);
    forall id | id in t.ledger.live && id in t.ledger.entries && t.ledger.entries[id].final
      ensures t.ledger.entries[id].buffer.Some? || Held(t, id)
    {
      if e.WaitReceive? && s.waits[e.waiter].id == id && t.waits[e.waiter].Holding? {
        assert Held(t, id);
      } else if t.ledger.entries[id].buffer.None? {
        assert Held(s, id);
        var w :| w in s.waits && s.waits[w].Holding? && s.waits[w].id == id;
        assert t.waits[w] == s.waits[w];
      }
    }
  }

  ghost predicate CloseAgrees(s: System, fates: map<Id, Fate>, id: Id) {
    multiset(s.written)[id] + (if id in s.owed then 1 else 0)
    == (if IsClosed(fates, id) then 1 else 0)
  }

  predicate IsClosed(fates: map<Id, Fate>, id: Id) { id in fates && fates[id].outcome.Closed? }

  lemma PenUntouched(s: System, e: Event)
    requires Enabled(s, e) && !e.SelfClose? && !e.WriteSelfClose?
    ensures Step(s, e).owed == s.owed && Step(s, e).written == s.written
  {
  }

  lemma VerdictUntouched(s: System, fates: map<Id, Fate>, e: Event, id: Id)
    requires Enabled(s, e) && !e.SelfClose? && (id in fates <==> id in s.ledger.entries)
    ensures IsClosed(Decide(fates, e), id) == IsClosed(fates, id)
  {
  }

  lemma SelfCloseKeepsClose(s: System, fates: map<Id, Fate>, target: Id, id: Id)
    requires CloseAgrees(s, fates, id) && (id in fates <==> id in s.ledger.entries)
    requires id in fates ==> RowAgrees(s.ledger, id, fates[id])
    ensures CloseAgrees(Step(s, SelfClose(target)), Decide(fates, SelfClose(target)), id)
  {
    if target != id {
      assert IsClosed(Decide(fates, SelfClose(target)), id) == IsClosed(fates, id);
    }
  }

  lemma WriteKeepsClose(s: System, fates: map<Id, Fate>, target: Id, id: Id)
    requires CloseAgrees(s, fates, id) && target in s.owed
    ensures CloseAgrees(Step(s, WriteSelfClose(target)), fates, id)
  {
    assert multiset(s.written + [target])[id] == multiset(s.written)[id] + if id == target then 1 else 0;
  }

  lemma StepKeepsClose(s: System, fates: map<Id, Fate>, e: Event, id: Id)
    requires Enabled(s, e) && CloseAgrees(s, fates, id)
    requires id in fates <==> id in s.ledger.entries
    requires id in fates ==> RowAgrees(s.ledger, id, fates[id])
    ensures CloseAgrees(Step(s, e), Decide(fates, e), id)
  {
    if e.SelfClose? {
      SelfCloseKeepsClose(s, fates, e.id, id);
    } else if e.WriteSelfClose? {
      WriteKeepsClose(s, fates, e.id, id);
    } else {
      PenUntouched(s, e);
      VerdictUntouched(s, fates, e, id);
    }
  }

  lemma StepKeepsCloses(s: System, fates: map<Id, Fate>, e: Event)
    requires Inv(s, fates) && Enabled(s, e)
    ensures ClosesAgree(Step(s, e), Decide(fates, e))
  {
    forall id
      ensures CloseAgrees(Step(s, e), Decide(fates, e), id)
    {
      StepKeepsClose(s, fates, e, id);
    }
  }

  lemma StepKeepsInv(s: System, fates: map<Id, Fate>, e: Event)
    requires Inv(s, fates) && Enabled(s, e)
    ensures Inv(Step(s, e), Decide(fates, e))
  {
    StepKeepsRows(s, fates, e);
    StepKeepsWaits(s, fates, e);
    StepNeverStrands(s, fates, e);
    StepKeepsCloses(s, fates, e);
  }

  // ------------------------------------------------------------------- runs

  ghost predicate Runnable(s: System, events: seq<Event>)
    decreases |events|
  {
    events == [] || (Enabled(s, events[0]) && Runnable(Step(s, events[0]), events[1..]))
  }

  ghost function Run(s: System, events: seq<Event>): System
    requires Runnable(s, events)
    decreases |events|
  {
    if events == [] then s else Run(Step(s, events[0]), events[1..])
  }

  /** The verdict on every request, read off the events alone. */
  ghost function Verdicts(fates: map<Id, Fate>, events: seq<Event>): map<Id, Fate>
    decreases |events|
  {
    if events == [] then fates else Verdicts(Decide(fates, events[0]), events[1..])
  }

  lemma {:induction false} RunKeepsInv(s: System, fates: map<Id, Fate>, events: seq<Event>)
    requires Inv(s, fates) && Runnable(s, events)
    ensures Inv(Run(s, events), Verdicts(fates, events))
    decreases |events|
  {
    if events != [] {
      StepKeepsInv(s, fates, events[0]);
      RunKeepsInv(Step(s, events[0]), Decide(fates, events[0]), events[1..]);
    }
  }

  /** Over every run: no send hits a closed channel and none closes twice; a
      request is closed by this caller exactly once if the first decisive event was
      a timeout or cancel, and never otherwise; a wait is told "closed" only of a
      decided request and handed a final only of an answered one. */
  lemma EveryRunArbitrates(events: seq<Event>)
    requires Runnable(Start, events)
    ensures var s, fates := Run(Start, events), Verdicts(map[], events);
            && !s.fault
            && NeverStranded(s)
            && ClosesAgree(s, fates)
            && (forall id :: id in fates ==> id in s.ledger.entries && s.ledger.entries[id].progress == fates[id].progress)
            && InFlight(s.ledger) == (set id | id in fates && fates[id].outcome.Open?)
            && (forall w :: w in s.waits ==> WaitAgrees(fates, s.waits[w]))
  {
    RunKeepsInv(Start, map[], events);
    var s, fates := Run(Start, events), Verdicts(map[], events);
    assert forall id :: id in fates ==> RowAgrees(s.ledger, id, fates[id]);
  }

  /** A decided request stays decided the same way, whatever happens later. */
  lemma {:induction false} VerdictsAreFinal(fates: map<Id, Fate>, events: seq<Event>, id: Id)
    requires id in fates && !fates[id].outcome.Open?
    requires forall i :: 0 <= i < |events| ==> events[i] != Register(id)
    ensures id in Verdicts(fates, events) && Verdicts(fates, events)[id] == fates[id]
    decreases |events|
  {
    if events != [] {
      assert events[0] != Register(id);
      forall i | 0 <= i < |events[1..]|
        ensures events[1..][i] != Register(id)
      {
        assert events[1..][i] == events[i + 1];
      }
      VerdictsAreFinal(Decide(fates, events[0]), events[1..], id);
    }
  }

  /** A wait that gives up empty-handed leaves an in-flight request, a request that
      left the table, or one whose final another wait holds: never a lost final. */
  lemma GivingUpLosesNothing(s: System, fates: map<Id, Fate>, w: WaiterId)
    requires Inv(s, fates) && Enabled(s, WaitGiveUp(w))
    ensures var t, id := Step(s, WaitGiveUp(w)), s.waits[w].id;
            t.waits[w].answer.GaveUp? ==>
              t.ledger == s.ledger && (id in InFlight(t.ledger) || id !in t.ledger.live || Held(t, id))
  {
    var t, id := Step(s, WaitGiveUp(w)), s.waits[w].id;
    if t.waits[w].answer.GaveUp? && id in s.ledger.live && s.ledger.entries[id].final {
      var h :| h in s.waits && s.waits[h].Holding? && s.waits[h].id == id;
      assert t.waits[h] == s.waits[h];
    }
  }

  // ------------------------------------------------- one final per request

  /** The log admits one terminal per request, so no request is matched by two finals. */
  ghost predicate OneFinalEach(fates: map<Id, Fate>, e: Event) {
    e.Match? && e.response.isFinal && e.response.parent in fates ==> !fates[e.response.parent].outcome.Finished?
  }

  ghost predicate Has(p: Phase, id: Id, tag: Tag) {
    p == Holding(id, tag) || p == Returned(id, Answered(tag))
  }

  ghost predicate HasAny(p: Phase, id: Id) {
    (p.Holding? || (p.Returned? && p.answer.Answered?)) && p.id == id
  }

  /** An accepted final is in exactly one place: its channel, or one wait. */
  ghost predicate Placed(s: System, id: Id, tag: Tag)
    requires id in s.ledger.entries
  {
    if s.ledger.entries[id].buffer.Some? then
      s.ledger.entries[id].buffer == Some(tag) && forall w :: w in s.waits ==> !HasAny(s.waits[w], id)
    else
      exists w :: w in s.waits && Has(s.waits[w], id, tag) &&
        forall v :: v in s.waits && HasAny(s.waits[v], id) ==> v == w
  }

  ghost predicate AllPlaced(s: System, fates: map<Id, Fate>) {
    forall id :: id in fates && id in s.ledger.entries && fates[id].outcome.Finished? ==>
      Placed(s, id, fates[id].outcome.tag)
  }

  lemma StepKeepsPlaces(s: System, fates: map<Id, Fate>, e: Event)
    requires Inv(s, fates) && Enabled(s, e) && AllPlaced(s, fates) && OneFinalEach(fates, e)
    ensures AllPlaced(Step(s, e), Decide(fates, e))
  {
    var t, next := Step(s, e), Decide(fates, e);
    forall id | id in next && id in t.ledger.entries && next[id].outcome.Finished?
      ensures Placed(t, id, next[id].outcome.tag)
    {
      var tag := next[id].outcome.tag;
      if id in fates && fates[id].outcome.Finished? {
        assert RowAgrees(s.ledger, id, fates[id]);
        PlaceMoves(s, fates, e, id, tag);
      } else {
        forall w | w in t.waits
          ensures !HasAny(t.waits[w], id)
        {
          assert WaitAgrees(fates, s.waits[w]);
        }
      }
    }
  }

  lemma PlaceMoves(s: System, fates: map<Id, Fate>, e: Event, id: Id, tag: Tag)
    requires Enabled(s, e) && OneFinalEach(fates, e)
    requires id in fates && id in s.ledger.entries && RowAgrees(s.ledger, id, fates[id])
    requires fates[id].outcome == Finished(tag) && Placed(s, id, tag)
    ensures id in Step(s, e).ledger.entries && Placed(Step(s, e), id, tag)
  {
    var t := Step(s, e);
    match e
    case Register(_) =>
    case Forget(_) =>
    case Match(_) =>
    case SelfClose(_) =>
    case WriteSelfClose(_) =>
    case _ => WaitMovesPlace(s, fates, e, id, tag);
  }

  lemma WaitMovesPlace(s: System, fates: map<Id, Fate>, e: Event, id: Id, tag: Tag)
    requires Enabled(s, e) && (e.WaitStart? || e.WaitReceive? || e.WaitConsume? || e.WaitGiveUp?)
    requires id in fates && id in s.ledger.entries && RowAgrees(s.ledger, id, fates[id])
    requires fates[id].outcome == Finished(tag) && Placed(s, id, tag)
    ensures id in Step(s, e).ledger.entries && Placed(Step(s, e), id, tag)
  {
    var t := Step(s, e);
    if s.ledger.entries[id].buffer.Some? {
      if t.ledger.entries[id].buffer.None? {
        assert Has(t.waits[e.waiter], id, tag);
      }
    } else {
      var w :| w in s.waits && Has(s.waits[w], id, tag) &&
               forall v :: v in s.waits && HasAny(s.waits[v], id) ==> v == w;
      assert Has(t.waits[w], id, tag);
    }
  }

  ghost predicate OneFinalRun(fates: map<Id, Fate>, events: seq<Event>)
    decreases |events|
  {
    events != [] ==> OneFinalEach(fates, events[0]) && OneFinalRun(Decide(fates, events[0]), events[1..])
  }

  lemma {:induction false} RunKeepsPlaces(s: System, fates: map<Id, Fate>, events: seq<Event>)
    requires Inv(s, fates) && Runnable(s, events) && AllPlaced(s, fates) && OneFinalRun(fates, events)
    ensures AllPlaced(Run(s, events), Verdicts(fates, events))
    decreases |events|
  {
    if events != [] {
      StepKeepsInv(s, fates, events[0]);
      StepKeepsPlaces(s, fates, events[0]);
      RunKeepsPlaces(Step(s, events[0]), Decide(fates, events[0]), events[1..]);
    }
  }

  /** An accepted final reaches one wait and no other, or is still in its channel. */
  lemma EveryFinalReachesOneWait(events: seq<Event>, id: Id)
    requires Runnable(Start, events) && OneFinalRun(map[], events)
    requires id in Verdicts(map[], events) && Verdicts(map[], events)[id].outcome.Finished?
    ensures id in Run(Start, events).ledger.entries
    ensures Placed(Run(Start, events), id, Verdicts(map[], events)[id].outcome.tag)
  {
    RunKeepsInv(Start, map[], events);
    RunKeepsPlaces(Start, map[], events);
  }

  // ---------------------------------------------------------------- waking

  ghost predicate SomeWaitHas(s: System, id: Id) {
    exists w :: w in s.waits && HasAny(s.waits[w], id)
  }

  /** A final no wait has is in its channel. */
  ghost predicate NotLost(s: System, fates: map<Id, Fate>) {
    forall id :: id in fates && id in s.ledger.entries && fates[id].outcome.Finished? ==>
      SomeWaitHas(s, id) || s.ledger.entries[id].buffer == Some(fates[id].outcome.tag)
  }

  lemma StillHas(s: System, e: Event, id: Id)
    requires Enabled(s, e) && SomeWaitHas(s, id)
    ensures SomeWaitHas(Step(s, e), id)
  {
    var w :| w in s.waits && HasAny(s.waits[w], id);
    assert w in Step(s, e).waits && HasAny(Step(s, e).waits[w], id);
  }

  lemma StepLosesNothing(s: System, fates: map<Id, Fate>, e: Event)
    requires Inv(s, fates) && NotLost(s, fates) && Enabled(s, e)
    ensures NotLost(Step(s, e), Decide(fates, e))
  {
    var t, next := Step(s, e), Decide(fates, e);
    forall id | id in next && id in t.ledger.entries && next[id].outcome.Finished?
      ensures SomeWaitHas(t, id) || t.ledger.entries[id].buffer == Some(next[id].outcome.tag)
    {
      if SomeWaitHas(s, id) {
        StillHas(s, e, id);
      } else if id in fates {
        assert RowAgrees(s.ledger, id, fates[id]);
        if (e.WaitReceive? || e.WaitGiveUp?) && t.ledger.entries[id].buffer.None? {
          assert HasAny(t.waits[e.waiter], id);
        }
      }
    }
  }

  lemma {:induction false} RunLosesNothing(s: System, fates: map<Id, Fate>, events: seq<Event>)
    requires Inv(s, fates) && NotLost(s, fates) && Runnable(s, events)
    ensures Inv(Run(s, events), Verdicts(fates, events)) && NotLost(Run(s, events), Verdicts(fates, events))
    decreases |events|
  {
    if events != [] {
      StepKeepsInv(s, fates, events[0]);
      StepLosesNothing(s, fates, events[0]);
      RunLosesNothing(Step(s, events[0]), Decide(fates, events[0]), events[1..]);
    }
  }

  /** What becomes of a parked wait that looks at its channel, by the verdict on its request. */
  ghost predicate Woken(p: Phase, id: Id, fate: Fate, taken: bool) {
    match fate.outcome
    case Closed => p == Returned(id, CallClosed)
    case Finished(tag) => !taken ==> p == Holding(id, tag)
    case Open => p == Parked(id)
    case Withdrawn => p == Parked(id)
  }

  /** Over every run a parked wait that looks at its channel is told of a close, and handed a
      final no wait has; it goes on waiting only for a request that is open, was withdrawn, or
      whose final some wait has. */
  lemma EveryWaitIsWoken(events: seq<Event>, w: WaiterId)
    requires Runnable(Start, events)
    requires w in Run(Start, events).waits && Run(Start, events).waits[w].Parked?
    ensures var s, fates := Run(Start, events), Verdicts(map[], events);
            var id := s.waits[w].id;
            && Enabled(s, WaitReceive(w)) && id in fates
            && Woken(Step(s, WaitReceive(w)).waits[w], id, fates[id], SomeWaitHas(s, id))
  {
    RunLosesNothing(Start, map[], events);
    var s, fates := Run(Start, events), Verdicts(map[], events);
    assert WaitAgrees(fates, s.waits[w]);
    assert RowAgrees(s.ledger, s.waits[w].id, fates[s.waits[w].id]);
  }

  ghost predicate BothAnswered(s: System, id: Id, first: Tag, second: Tag) {
    && 0 in s.waits && s.waits[0] == Returned(id, Answered(first))
    && 1 in s.waits && s.waits[1] == Returned(id, Answered(second))
  }

  /** Wait 0 has received a final and not yet deleted its row; wait 1 is parked on it. */
  ghost predicate Poised(s: System, id: Id, first: Tag) {
    && 0 in s.waits && s.waits[0] == Holding(id, first)
    && 1 in s.waits && s.waits[1] == Parked(id)
    && id in s.ledger.live && id in s.ledger.entries
    && !s.ledger.entries[id].closed && s.ledger.entries[id].buffer.None?
  }

  lemma PoisedIsReached(id: Id, first: Tag) returns (events: seq<Event>)
    ensures Runnable(Start, events) && Poised(Run(Start, events), id, first)
  {
    var one := Match(Response(first, id, true));
    var s1 := Step(Start, Register(id));
    var s2 := Step(s1, WaitStart(0, id));
    var s3 := Step(s2, WaitStart(1, id));
    var s4 := Step(s3, one);
    var s5 := Step(s4, WaitReceive(0));
    assert Poised(s5, id, first);
    events := [];
    RunCons(s4, WaitReceive(0), events);
    events := [WaitReceive(0)] + events;
    RunCons(s3, one, events);
    events := [one] + events;
    RunCons(s2, WaitStart(1, id), events);
    events := [WaitStart(1, id)] + events;
    RunCons(s1, WaitStart(0, id), events);
    events := [WaitStart(0, id)] + events;
    RunCons(Start, Register(id), events);
    events := [Register(id)] + events;
  }

  lemma PoisedAnswersTwice(s: System, id: Id, first: Tag, second: Tag) returns (events: seq<Event>)
    requires Poised(s, id, first)
    ensures Runnable(s, events) && BothAnswered(Run(s, events), id, first, second)
  {
    var two := Match(Response(second, id, true));
    var s1 := Step(s, two);
    var s2 := Step(s1, WaitReceive(1));
    var s3 := Step(s2, WaitConsume(0));
    events := [];
    RunCons(s3, WaitConsume(1), events);
    events := [WaitConsume(1)] + events;
    RunCons(s2, WaitConsume(0), events);
    events := [WaitConsume(0)] + events;
    RunCons(s1, WaitReceive(1), events);
    events := [WaitReceive(1)] + events;
    RunCons(s, two, events);
    events := [two] + events;
  }

  lemma {:induction false} RunJoins(s: System, a: seq<Event>, b: seq<Event>)
    requires Runnable(s, a) && Runnable(Run(s, a), b)
    ensures Runnable(s, a + b) && Run(s, a + b) == Run(Run(s, a), b)
    decreases |a|
  {
    if a == [] {
      assert a + b == b;
    } else {
      RunJoins(Step(s, a[0]), a[1..], b);
      RunCons(s, a[0], a[1..] + b);
      assert a + b == [a[0]] + (a[1..] + b);
    }
  }

  /** The code leans on the log's rule: a second final landing between a wait's receive
      and its delete would be buffered again and answer a second wait. */
  lemma SecondFinalIsDelivered(id: Id, first: Tag, second: Tag)
    ensures exists events :: Runnable(Start, events) && BothAnswered(Run(Start, events), id, first, second)
  {
    var a := PoisedIsReached(id, first);
    var b := PoisedAnswersTwice(Run(Start, a), id, first, second);
    RunJoins(Start, a, b);
  }

  lemma RunCons(s: System, e: Event, rest: seq<Event>)
    requires Enabled(s, e) && Runnable(Step(s, e), rest)
    ensures Runnable(s, [e] + rest) && Run(s, [e] + rest) == Run(Step(s, e), rest)
  {
    assert ([e] + rest)[1..] == rest;
  }
}
