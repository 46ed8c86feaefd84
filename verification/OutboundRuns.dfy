/** Every interleaving of lane changes, converge passes, opens, closes and the seal,
    with each opened stream traced to where it is. */
module OutboundRuns {
  import opened Options
  import opened Outbound

  type Worker = nat

  /** One open goroutine between its sections. */
  datatype Phase =
    | Dialing(slot: Slot, session: Session)
    | Dialed(slot: Slot, bundle: Bundle)
    | Rechecking(slot: Slot, bundle: Bundle)
    | Ended(slot: Slot)

  /** Where an opened stream is. */
  datatype Place = InHand(worker: Worker) | Installed(slot: Slot) | Owed | Closed

  /** `owed` are streams taken out whose Close has not been called yet; `done` those
      whose Close has; `places` traces every stream ever opened. */
  datatype System = System(
    t: Table, workers: map<Worker, Phase>, owed: set<Stream>, done: set<Stream>, places: map<Stream, Place>)

  const Start := System(Table(false, None, {}, {}, map[], {}), map[], {}, {}, map[])

  datatype Event =
    | Prepare(slot: Slot)
    | SetLane(session: Session)
    | LaneDown(session: Session)
    | Converge(slot: Slot, facts: Facts, worker: Worker)
    | DialFails(worker: Worker)
    | DialSucceeds(worker: Worker, stream: Stream)
    | Publish(worker: Worker, bodyCurrent: bool, sessionCurrent: bool)
    | Recheck(worker: Worker, sessionCurrent: bool)
    | MarkClosed(slot: Slot)
    | CloseSlot(slot: Slot)
    | CloseStream(stream: Stream)
    | Seal

  predicate Enabled(s: System, e: Event) {
    match e
    case Prepare(slot) => slot !in s.t.arms && slot !in s.t.closed
    case Converge(_, _, w) => w !in s.workers
    case DialFails(w) => w in s.workers && s.workers[w].Dialing?
    case DialSucceeds(w, stream) => w in s.workers && s.workers[w].Dialing? && stream !in s.places
    case Publish(w, _, _) => w in s.workers && s.workers[w].Dialed?
    case Recheck(w, _) => w in s.workers && s.workers[w].Rechecking?
    case MarkClosed(slot) => slot in s.t.arms
    case CloseSlot(slot) => slot in s.t.closed && slot in s.t.arms
    case CloseStream(stream) => stream in s.owed
    case _ => true
  }

  /** Hand these streams to their closer. */
  function TakeOut(s: System, t: Table, streams: set<Stream>): System {
    s.(t := t, owed := s.owed + streams,
       places := map x | x in s.places :: if x in streams then Owed else s.places[x])
  }

  function Step(s: System, e: Event): System
    requires Enabled(s, e)
  {
    match e
    case Prepare(slot) => s.(t := Prepared(s.t, slot))
    case SetLane(session) => var (t, out) := LaneSet(s.t, session); TakeOut(s, t, out)
    case LaneDown(session) => var (t, out) := LaneDowned(s.t, session); TakeOut(s, t, out)
    case Converge(slot, f, w) =>
      var (t, out, dial) := Converged(s.t, slot, f);
      var next := TakeOut(s, t, out);
      if dial.Some? then next.(workers := s.workers[w := Dialing(slot, dial.value)]) else next
    case DialFails(w) =>
      s.(t := OpenFailed(s.t, s.workers[w].slot), workers := s.workers[w := Ended(s.workers[w].slot)])
    case DialSucceeds(w, stream) =>
      var Dialing(slot, session) := s.workers[w];
      s.(workers := s.workers[w := Dialed(slot, Bundle(session, stream))], places := s.places[stream := InHand(w)])
    case Publish(w, bodyCurrent, sessionCurrent) =>
      var Dialed(slot, b) := s.workers[w];
      var (t, out, published) := Published(s.t, slot, b, bodyCurrent, sessionCurrent);
      var next := TakeOut(s, t, out);
      if published then
        next.(workers := s.workers[w := Rechecking(slot, b)], places := next.places[b.stream := Installed(slot)])
      else next.(workers := s.workers[w := Ended(slot)])
    case Recheck(w, sessionCurrent) =>
      var Rechecking(slot, b) := s.workers[w];
      var next := if sessionCurrent then s else var (t, out) := Withdrawn(s.t, slot, b); TakeOut(s, t, out);
      next.(workers := s.workers[w := Ended(slot)])
    case MarkClosed(slot) => s.(t := s.t.(closed := s.t.closed + {slot}))
    case CloseSlot(slot) => var (t, out) := SlotClosed(s.t, slot); TakeOut(s, t, out)
    case CloseStream(x) => s.(owed := s.owed - {x}, done := s.done + {x}, places := s.places[x := Closed])
    case Seal => s.(t := s.t.(sealed := true))
  }

  // --------------------------------------------------------------- invariant

  predicate InFlight(p: Phase) { p.Dialing? || p.Dialed? }

  /** A connected slot is registered and on exactly the current session. */
  ghost predicate ArmsCurrent(t: Table) {
    forall slot :: slot in t.arms && t.arms[slot].Some? ==>
      slot in t.slots && Some(t.arms[slot].value.session) == t.session
  }

  /** The opening mark is held by exactly one open, and its slot is disconnected. */
  ghost predicate OneOpenEach(workers: map<Worker, Phase>, opening: set<Slot>) {
    && (forall w :: w in workers && InFlight(workers[w]) ==> workers[w].slot in opening)
    && (forall v, w | v in workers && w in workers && InFlight(workers[v]) && InFlight(workers[w])
          :: workers[v].slot == workers[w].slot ==> v == w)
  }

  ghost predicate OpeningDisconnected(t: Table) {
    forall slot :: slot in t.opening ==> ArmsOf(t, slot).None?
  }

  ghost predicate At(s: System, x: Stream, place: Place) {
    match place
    case InHand(w) => w in s.workers && s.workers[w].Dialed? && s.workers[w].bundle.stream == x
    case Installed(slot) => slot in s.t.arms && s.t.arms[slot].Some? && s.t.arms[slot].value.stream == x
    case Owed => x in s.owed
    case Closed => x in s.done
  }

  /** Every opened stream is in exactly one place, the traced one. */
  ghost predicate Traced(s: System) {
    && (forall x :: x in s.places ==> At(s, x, s.places[x]))
    && (forall w :: w in s.workers && s.workers[w].Dialed? ==>
          s.workers[w].bundle.stream in s.places && s.places[s.workers[w].bundle.stream] == InHand(w))
    && (forall slot :: slot in s.t.arms && s.t.arms[slot].Some? ==>
          s.t.arms[slot].value.stream in s.places && s.places[s.t.arms[slot].value.stream] == Installed(slot))
    && (forall x :: x in s.owed ==> x in s.places && s.places[x] == Owed)
    && (forall x :: x in s.done ==> x in s.places && s.places[x] == Closed)
  }

  ghost predicate Inv(s: System) {
    && ArmsCurrent(s.t)
    && s.t.slots <= s.t.arms.Keys
    && OneOpenEach(s.workers, s.t.opening)
    && OpeningDisconnected(s.t)
    && Traced(s)
  }

  /** A section that only disconnects, and hands over exactly what it cut. */
  ghost predicate Cuts(a: map<Slot, Option<Bundle>>, b: map<Slot, Option<Bundle>>, out: set<Stream>) {
    && (forall s :: s in b && b[s].Some? ==> s in a && a[s] == b[s])
    && (forall s :: s in a && a[s].Some? ==> (s in b && b[s] == a[s]) || a[s].value.stream in out)
    && (forall x :: x in out ==> exists s :: s in a && a[s].Some? && a[s].value.stream == x && (s in b ==> b[s].None?))
  }

  lemma CutKeepsTraces(s: System, t: Table, out: set<Stream>)
    requires Traced(s) && Cuts(s.t.arms, t.arms, out)
    ensures Traced(TakeOut(s, t, out))
  {
    var n := TakeOut(s, t, out);
    forall x | x in out
      ensures x in s.places && s.places[x].Installed? && (s.places[x].slot in t.arms ==> t.arms[s.places[x].slot].None?)
    {
      var slot :| slot in s.t.arms && s.t.arms[slot].Some? && s.t.arms[slot].value.stream == x && (slot in t.arms ==> t.arms[slot].None?);
    }
    forall x | x in n.places
      ensures At(n, x, n.places[x])
    {
      assert At(s, x, s.places[x]);
    }
  }

  lemma CutKeepsArms(t: Table, u: Table, out: set<Stream>)
    requires ArmsCurrent(t) && Cuts(t.arms, u.arms, out)
    requires u.session == t.session && u.slots == t.slots
    ensures ArmsCurrent(u)
  {
  }

  lemma AllCut(t: Table)
    requires ArmsCurrent(t)
    ensures Cuts(t.arms, AllDisconnected(t.arms, t.slots), StreamsOf(t.arms, t.slots))
    ensures forall s :: s in AllDisconnected(t.arms, t.slots) ==> AllDisconnected(t.arms, t.slots)[s].None?
  {
    var b := AllDisconnected(t.arms, t.slots);
    forall x | x in StreamsOf(t.arms, t.slots)
      ensures exists s :: s in t.arms && t.arms[s].Some? && t.arms[s].value.stream == x && (s in b ==> b[s].None?)
    {
      var s :| s in t.slots && s in t.arms && t.arms[s].Some? && t.arms[s].value.stream == x;
      assert b[s].None?;
    }
  }

  lemma OneCut(arms: map<Slot, Option<Bundle>>, slot: Slot)
    ensures Cuts(arms, arms[slot := None], StreamOf(if slot in arms then arms[slot] else None))
  {
    var b, gone := arms[slot := None], StreamOf(if slot in arms then arms[slot] else None);
    forall x | x in gone
      ensures exists s :: s in arms && arms[s].Some? && arms[s].value.stream == x && (s in b ==> b[s].None?)
    {
      assert slot in arms && b[slot].None?;
    }
  }

  lemma NoCut(arms: map<Slot, Option<Bundle>>)
    ensures Cuts(arms, arms, {})
  {
  }

  lemma RetagKeepsTraces(s: System, workers: map<Worker, Phase>)
    requires Traced(s)
    requires forall w :: w in workers && workers[w].Dialed? ==> w in s.workers && s.workers[w] == workers[w]
    requires forall w :: w in s.workers && s.workers[w].Dialed? ==> w in workers && s.workers[w] == workers[w]
    ensures Traced(s.(workers := workers))
  {
    var n := s.(workers := workers);
    forall x | x in n.places
      ensures At(n, x, n.places[x])
    {
      assert At(s, x, s.places[x]);
    }
  }

  /** An open that leaves flight gives its mark back. */
  lemma LandKeepsOpens(workers: map<Worker, Phase>, opening: set<Slot>, w: Worker, phase: Phase)
    requires OneOpenEach(workers, opening) && w in workers && !InFlight(phase) && InFlight(workers[w])
    ensures OneOpenEach(workers[w := phase], opening - {workers[w].slot})
  {
    var next := workers[w := phase];
    assert forall v :: v in next && InFlight(next[v]) ==> v in workers && workers[v] == next[v] && v != w;
  }

  lemma LateKeepsOpens(workers: map<Worker, Phase>, opening: set<Slot>, w: Worker, phase: Phase)
    requires OneOpenEach(workers, opening) && !InFlight(phase) && w in workers && !InFlight(workers[w])
    ensures OneOpenEach(workers[w := phase], opening)
  {
    var next := workers[w := phase];
    assert forall v :: v in next && InFlight(next[v]) ==> v in workers && workers[v] == next[v];
  }

  lemma StartKeepsOpens(workers: map<Worker, Phase>, opening: set<Slot>, w: Worker, slot: Slot, session: Session)
    requires OneOpenEach(workers, opening) && w !in workers && slot !in opening
    ensures OneOpenEach(workers[w := Dialing(slot, session)], opening + {slot})
  {
    var next := workers[w := Dialing(slot, session)];
    assert forall v :: v in next && v != w ==> v in workers && workers[v] == next[v];
  }

  /** A lane change disconnects every slot, so nothing rides the old session. */
  lemma LaneKeepsInv(s: System, e: Event)
    requires Inv(s) && (e.SetLane? || e.LaneDown?)
    ensures Inv(Step(s, e))
  {
    var (t, out) := if e.SetLane? then LaneSet(s.t, e.session) else LaneDowned(s.t, e.session);
    AllCut(s.t);
    NoCut(s.t.arms);
    CutKeepsTraces(s, t, out);
    assert ArmsCurrent(t);
  }

  lemma ConvergeCuts(t: Table, slot: Slot, f: Facts)
    requires t.slots <= t.arms.Keys
    ensures var (u, out, dial) := Converged(t, slot, f);
            && Cuts(t.arms, u.arms, out) && u.session == t.session && u.slots == t.slots
            && t.arms.Keys == u.arms.Keys
            && (dial.Some? ==> slot !in t.opening && u.opening == t.opening + {slot} && ArmsOf(u, slot).None?)
            && (dial.None? ==> u.opening == t.opening)
  {
    OneCut(t.arms, slot);
    NoCut(t.arms);
  }

  lemma QuietPassKeepsInv(s: System, e: Event)
    requires Inv(s) && e.Converge? && Enabled(s, e) && Converged(s.t, e.slot, e.facts).2.None?
    ensures Inv(Step(s, e))
  {
    var (t, out, dial) := Converged(s.t, e.slot, e.facts);
    ConvergeCuts(s.t, e.slot, e.facts);
    CutKeepsTraces(s, t, out);
    CutKeepsArms(s.t, t, out);
  }

  lemma DialingPassKeepsInv(s: System, e: Event)
    requires Inv(s) && e.Converge? && Enabled(s, e) && Converged(s.t, e.slot, e.facts).2.Some?
    ensures Inv(Step(s, e))
  {
    var (t, out, dial) := Converged(s.t, e.slot, e.facts);
    ConvergeCuts(s.t, e.slot, e.facts);
    CutKeepsTraces(s, t, out);
    CutKeepsArms(s.t, t, out);
    StartKeepsOpens(s.workers, s.t.opening, e.worker, e.slot, dial.value);
    RetagKeepsTraces(TakeOut(s, t, out), s.workers[e.worker := Dialing(e.slot, dial.value)]);
  }

  lemma ConvergeKeepsInv(s: System, e: Event)
    requires Inv(s) && e.Converge? && Enabled(s, e)
    ensures Inv(Step(s, e))
  {
    if Converged(s.t, e.slot, e.facts).2.Some? { DialingPassKeepsInv(s, e); } else { QuietPassKeepsInv(s, e); }
  }

  lemma DialFailsKeepsInv(s: System, e: Event)
    requires Inv(s) && e.DialFails? && Enabled(s, e)
    ensures Inv(Step(s, e))
  {
    var slot := s.workers[e.worker].slot;
    LandKeepsOpens(s.workers, s.t.opening, e.worker, Ended(slot));
    RetagKeepsTraces(s, s.workers[e.worker := Ended(slot)]);
    CutKeepsTraces(s.(workers := s.workers[e.worker := Ended(slot)]), OpenFailed(s.t, slot), {});
    assert TakeOut(s.(workers := s.workers[e.worker := Ended(slot)]), OpenFailed(s.t, slot), {}).places == s.places;
  }

  lemma DialSucceedsKeepsInv(s: System, e: Event)
    requires Inv(s) && e.DialSucceeds? && Enabled(s, e)
    ensures Inv(Step(s, e))
  {
    var n := Step(s, e);
    assert forall w :: w in n.workers && w != e.worker ==> w in s.workers && n.workers[w] == s.workers[w];
    forall x | x in n.places
      ensures At(n, x, n.places[x])
    {
      if x in s.places {
        assert At(s, x, s.places[x]);
      }
    }
  }

  /** Publishing never displaces a stream: the slot was disconnected while opening. */
  lemma PublishKeepsInv(s: System, e: Event)
    requires Inv(s) && e.Publish? && Enabled(s, e)
    ensures Inv(Step(s, e))
    ensures Step(s, e).workers[e.worker].Rechecking? ==> Step(s, e).owed == s.owed
  {
    var n := Step(s, e);
    var Dialed(slot, b) := s.workers[e.worker];
    assert s.places[b.stream] == InHand(e.worker);
    assert slot in s.t.opening && ArmsOf(s.t, slot).None?;
    LandKeepsOpens(s.workers, s.t.opening, e.worker, n.workers[e.worker]);
    assert ArmsCurrent(n.t);
    PublishKeepsTraces(s, e);
  }

  lemma PublishKeepsTraces(s: System, e: Event)
    requires Inv(s) && e.Publish? && Enabled(s, e)
    requires ArmsOf(s.t, s.workers[e.worker].slot).None?
    ensures Traced(Step(s, e))
  {
    var n := Step(s, e);
    var Dialed(slot, b) := s.workers[e.worker];
    assert s.places[b.stream] == InHand(e.worker);
    var place := if n.workers[e.worker].Rechecking? then Installed(slot) else Owed;
    assert n.places == s.places[b.stream := place];
    HandOverKeepsTraces(s, n, e.worker, b, place);
  }

  /** A dialled stream leaves its worker's hand for a slot or for its closer. */
  lemma HandOverKeepsTraces(s: System, n: System, w: Worker, b: Bundle, place: Place)
    requires Traced(s) && w in s.workers && s.workers[w].Dialed? && s.workers[w].bundle == b
    requires w in n.workers && !n.workers[w].Dialed? && n.workers == s.workers[w := n.workers[w]]
    requires n.done == s.done && n.places == s.places[b.stream := place]
    requires match place
             case Installed(slot) => ArmsOf(s.t, slot).None? && n.t.arms == s.t.arms[slot := Some(b)] && n.owed == s.owed
             case Owed => n.t.arms == s.t.arms && n.owed == s.owed + {b.stream}
             case _ => false
    ensures Traced(n)
  {
    assert s.places[b.stream] == InHand(w);
    forall x | x in n.places
      ensures At(n, x, n.places[x])
    {
      if x != b.stream {
        assert At(s, x, s.places[x]);
      }
    }
  }

  lemma RecheckKeepsInv(s: System, e: Event)
    requires Inv(s) && e.Recheck? && Enabled(s, e)
    ensures Inv(Step(s, e))
  {
    var Rechecking(slot, b) := s.workers[e.worker];
    var (t, out) := if e.sessionCurrent then (s.t, {}) else Withdrawn(s.t, slot, b);
    OneCut(s.t.arms, slot);
    NoCut(s.t.arms);
    CutKeepsTraces(s, t, out);
    CutKeepsArms(s.t, t, out);
    RetagKeepsTraces(TakeOut(s, t, out), s.workers[e.worker := Ended(slot)]);
    LateKeepsOpens(s.workers, s.t.opening, e.worker, Ended(slot));
    assert e.sessionCurrent ==> TakeOut(s, t, out).places == s.places && s.owed + {} == s.owed;
  }

  lemma CloseKeepsInv(s: System, e: Event)
    requires Inv(s) && (e.CloseSlot? || e.CloseStream?) && Enabled(s, e)
    ensures Inv(Step(s, e))
  {
    if e.CloseSlot? {
      var (t, out) := SlotClosed(s.t, e.slot);
      OneCut(s.t.arms, e.slot);
      CutKeepsTraces(s, t, out);
    } else {
      var n := Step(s, e);
      forall x | x in n.places
        ensures At(n, x, n.places[x])
      {
        assert At(s, x, s.places[x]);
      }
    }
  }

  lemma TableKeepsInv(s: System, e: Event)
    requires Inv(s) && (e.Prepare? || e.MarkClosed? || e.Seal?) && Enabled(s, e)
    ensures Inv(Step(s, e))
  {
    var n := Step(s, e);
    forall x | x in n.places
      ensures At(n, x, n.places[x])
    {
      assert At(s, x, s.places[x]);
    }
  }

  lemma StepKeepsInv(s: System, e: Event)
    requires Inv(s) && Enabled(s, e)
    ensures Inv(Step(s, e))
  {
    match e
    case SetLane(_) => LaneKeepsInv(s, e);
    case LaneDown(_) => LaneKeepsInv(s, e);
    case Converge(_, _, _) => ConvergeKeepsInv(s, e);
    case DialFails(_) => DialFailsKeepsInv(s, e);
    case DialSucceeds(_, _) => DialSucceedsKeepsInv(s, e);
    case Publish(_, _, _) => PublishKeepsInv(s, e);
    case Recheck(_, _) => RecheckKeepsInv(s, e);
    case CloseSlot(_) => CloseKeepsInv(s, e);
    case CloseStream(_) => CloseKeepsInv(s, e);
    case _ => TableKeepsInv(s, e);
  }

  // ------------------------------------------------------------------- runs

  ghost predicate Runnable(s: System, events: seq<Event>)
    decreases |events|
  {
    events == [] || (Enabled(s, events[0]) && Runnable(Step(s, events[0]), events[1..]))
  }

  ghost function Run(s: System, events: seq<Event>): System
    requires Runnable(s, events)
    decreases |events|
  {
    if events == [] then s else Run(Step(s, events[0]), events[1..])
  }

  lemma {:induction false} RunKeepsInv(s: System, events: seq<Event>)
    requires Inv(s) && Runnable(s, events)
    ensures Inv(Run(s, events))
    decreases |events|
  {
    if events != [] {
      StepKeepsInv(s, events[0]);
      RunKeepsInv(Step(s, events[0]), events[1..]);
    }
  }

  /** Over every run: a connected slot rides exactly the current session; at most
      one open per slot is in flight; every stream ever opened is held by its
      opener, installed, owed a close, or closed, and never two of these. */
  lemma EveryRunConverges(events: seq<Event>)
    requires Runnable(Start, events)
    ensures var s := Run(Start, events);
            ArmsCurrent(s.t) && OneOpenEach(s.workers, s.t.opening) && Traced(s)
  {
    RunKeepsInv(Start, events);
  }

  /** With no open in flight and no close outstanding, every stream ever opened is
      installed in a registered slot on the current session or has been closed. */
  lemma NoStreamLeaks(events: seq<Event>, x: Stream)
    requires Runnable(Start, events) && x in Run(Start, events).places
    requires Run(Start, events).owed == {}
    requires forall w :: w in Run(Start, events).workers ==> !InFlight(Run(Start, events).workers[w])
    ensures var s := Run(Start, events);
            || x in s.done
            || exists slot :: slot in s.t.slots && slot in s.t.arms && s.t.arms[slot].Some? &&
                 s.t.arms[slot].value.stream == x && Some(s.t.arms[slot].value.session) == s.t.session
  {
    RunKeepsInv(Start, events);
    var s := Run(Start, events);
    assert At(s, x, s.places[x]);
  }

  /** A closed slot stays disconnected, whatever happens later. */
  lemma {:induction false} ClosedStaysDisconnected(s: System, events: seq<Event>, slot: Slot)
    requires Inv(s) && Runnable(s, events) && slot in s.t.closed && slot !in s.t.slots
    ensures var n := Run(s, events); slot in n.t.closed && slot !in n.t.slots && ArmsOf(n.t, slot).None?
    decreases |events|
  {
    if events != [] {
      StepKeepsInv(s, events[0]);
      ClosedStaysClosed(s, events[0], slot);
      ClosedStaysDisconnected(Step(s, events[0]), events[1..], slot);
    }
  }

  lemma ClosedStaysClosed(s: System, e: Event, slot: Slot)
    requires Enabled(s, e) && slot in s.t.closed && slot !in s.t.slots
    ensures slot in Step(s, e).t.closed && slot !in Step(s, e).t.slots
  {
    match e
    case Converge(_, _, _) =>
    case Publish(_, _, _) =>
    case Recheck(_, _) =>
    case _ =>
  }

  // ------------------------------------------------------------ convergence

  /** An open of the slot is in flight. */
  ghost predicate Opening(workers: map<Worker, Phase>, slot: Slot) {
    exists w :: w in workers && InFlight(workers[w]) && workers[w].slot == slot
  }

  /** Every opening mark is held by an open in flight. */
  ghost predicate MarksHeld(s: System) {
    forall slot :: slot in s.t.opening ==> Opening(s.workers, slot)
  }

  lemma StillOpening(a: map<Worker, Phase>, b: map<Worker, Phase>, slot: Slot)
    requires Opening(a, slot)
    requires forall w :: w in a && InFlight(a[w]) && a[w].slot == slot ==> w in b && InFlight(b[w]) && b[w].slot == slot
    ensures Opening(b, slot)
  {
    var w :| w in a && InFlight(a[w]) && a[w].slot == slot;
    assert w in b && InFlight(b[w]) && b[w].slot == slot;
  }

  lemma StepKeepsMarks(s: System, e: Event)
    requires Inv(s) && MarksHeld(s) && Enabled(s, e)
    ensures MarksHeld(Step(s, e))
  {
    var n := Step(s, e);
    forall slot | slot in n.t.opening
      ensures Opening(n.workers, slot)
    {
      if slot in s.t.opening {
        StillOpening(s.workers, n.workers, slot);
      } else {
        assert e.Converge? && e.worker in n.workers && InFlight(n.workers[e.worker]) && n.workers[e.worker].slot == slot;
      }
    }
  }

  lemma {:induction false} RunKeepsMarks(s: System, events: seq<Event>)
    requires Inv(s) && MarksHeld(s) && Runnable(s, events)
    ensures Inv(Run(s, events)) && MarksHeld(Run(s, events))
    decreases |events|
  {
    if events != [] {
      StepKeepsInv(s, events[0]);
      StepKeepsMarks(s, events[0]);
      RunKeepsMarks(Step(s, events[0]), events[1..]);
    }
  }

  /** Everything a slot needs to be connected. */
  ghost predicate Ready(s: System, slot: Slot) {
    !s.t.sealed && slot in s.t.slots && slot !in s.t.closed && s.t.session.Some?
  }

  /** Where a slot should be: on a live stream of the current session, or with an open of it
      on its way. */
  ghost predicate Settled(s: System, slot: Slot, ended: bool) {
    match ArmsOf(s.t, slot)
    case Some(b) => Some(b.session) == s.t.session && !ended
    case None => Opening(s.workers, slot)
  }

  /** One pass, with body and session current and no retry pending, changes nothing if and
      only if the slot is where it should be.  Otherwise it disconnects the slot, owes what it
      held a close, and dials the current session if and only if no open is in flight. */
  lemma ConvergeSettles(events: seq<Event>, slot: Slot, ended: bool, w: Worker)
    requires Runnable(Start, events) && Ready(Run(Start, events), slot) && w !in Run(Start, events).workers
    ensures var s := Run(Start, events);
            var n := Step(s, Converge(slot, Facts(true, true, ended, false), w));
            && (n == s <==> Settled(s, slot, ended))
            && (!Settled(s, slot, ended) ==>
                  && ArmsOf(n.t, slot).None? && n.owed == s.owed + StreamOf(ArmsOf(s.t, slot))
                  && (w in n.workers <==> !Opening(s.workers, slot))
                  && (w in n.workers ==> n.workers[w] == Dialing(slot, s.t.session.value)))
            && (forall other :: other != slot ==> ArmsOf(n.t, other) == ArmsOf(s.t, other))
  {
    RunKeepsMarks(Start, events);
    SettlesHere(Run(Start, events), slot, ended, w);
  }

  /** A pass that finds the body, the session or the slot gone leaves the slot disconnected
      and dials nothing; a pending retry or a sealed table is left alone. */
  lemma StaleIsCut(s: System, slot: Slot, f: Facts, w: Worker)
    requires Inv(s) && w !in s.workers
    ensures var n := Step(s, Converge(slot, f, w));
            && (!s.t.sealed && slot in s.t.slots && slot !in s.t.closed && !(f.bodyCurrent && f.sessionCurrent && s.t.session.Some?) ==>
                  ArmsOf(n.t, slot).None? && n.owed == s.owed + StreamOf(ArmsOf(s.t, slot)) && n.workers == s.workers)
            && (s.t.sealed || slot !in s.t.slots || slot in s.t.closed ==> n == s)
            && (Ready(s, slot) && f.bodyCurrent && f.sessionCurrent && f.retryPending ==> n == s)
  {
    NothingTaken(s);
  }

  lemma NothingTaken(s: System)
    ensures TakeOut(s, s.t, {}) == s
  {
    assert TakeOut(s, s.t, {}).places == s.places;
  }

  lemma MarkIsOpening(s: System, slot: Slot)
    requires Inv(s) && MarksHeld(s)
    ensures slot in s.t.opening <==> Opening(s.workers, slot)
  {
  }

  lemma SettlesHere(s: System, slot: Slot, ended: bool, w: Worker)
    requires Inv(s) && MarksHeld(s) && Ready(s, slot) && w !in s.workers
    ensures var n := Step(s, Converge(slot, Facts(true, true, ended, false), w));
            && (n == s <==> Settled(s, slot, ended))
            && (!Settled(s, slot, ended) ==>
                  && ArmsOf(n.t, slot).None? && n.owed == s.owed + StreamOf(ArmsOf(s.t, slot))
                  && (w in n.workers <==> !Opening(s.workers, slot))
                  && (w in n.workers ==> n.workers[w] == Dialing(slot, s.t.session.value)))
            && (forall other :: other != slot ==> ArmsOf(n.t, other) == ArmsOf(s.t, other))
  {
    NothingTaken(s);
    MarkIsOpening(s, slot);
    assert slot in s.t.arms;
    if ArmsOf(s.t, slot).None? && slot in s.t.opening {
      assert s.t.arms[slot := None] == s.t.arms;
    }
  }

  /** An open whose session, body and slot stay current ends with its very stream installed
      and its mark returned. */
  lemma OpenLands(events: seq<Event>, w: Worker, x: Stream)
    requires Runnable(Start, events)
    requires var s := Run(Start, events);
             && w in s.workers && s.workers[w].Dialing? && x !in s.places
             && Ready(s, s.workers[w].slot) && s.t.session == Some(s.workers[w].session)
    ensures var s := Run(Start, events);
            var Dialing(slot, session) := s.workers[w];
            var landing := [DialSucceeds(w, x), Publish(w, true, true), Recheck(w, true)];
            && Runnable(s, landing)
            && var n := Run(s, landing);
               && ArmsOf(n.t, slot) == Some(Bundle(session, x)) && n.t.session == Some(session)
               && slot !in n.t.opening && w in n.workers && n.workers[w] == Ended(slot) && n.owed == s.owed
               && Settled(n, slot, false)
  {
    RunKeepsInv(Start, events);
    Lands(Run(Start, events), w, x);
  }

  lemma Lands(s: System, w: Worker, x: Stream)
    requires Inv(s) && w in s.workers && s.workers[w].Dialing? && x !in s.places
    requires Ready(s, s.workers[w].slot) && s.t.session == Some(s.workers[w].session)
    ensures var Dialing(slot, session) := s.workers[w];
            var landing := [DialSucceeds(w, x), Publish(w, true, true), Recheck(w, true)];
            && Runnable(s, landing)
            && var n := Run(s, landing);
               && ArmsOf(n.t, slot) == Some(Bundle(session, x)) && n.t.session == Some(session)
               && slot !in n.t.opening && w in n.workers && n.workers[w] == Ended(slot) && n.owed == s.owed
               && Settled(n, slot, false)
  {
    var Dialing(slot, session) := s.workers[w];
    var a, b, c := DialSucceeds(w, x), Publish(w, true, true), Recheck(w, true);
    var s1 := Step(s, a);
    assert ArmsOf(s.t, slot).None?;
    var s2 := Step(s1, b);
    var s3 := Step(s2, c);
    assert s3.t.arms[slot] == Some(Bundle(session, x));
    assert s2.owed == s.owed;
    ThreeSteps(s, a, b, c);
  }

  lemma ThreeSteps(s: System, a: Event, b: Event, c: Event)
    requires Enabled(s, a) && Enabled(Step(s, a), b) && Enabled(Step(Step(s, a), b), c)
    ensures Runnable(s, [a, b, c]) && Run(s, [a, b, c]) == Step(Step(Step(s, a), b), c)
  {
    assert [a, b, c][1..] == [b, c] && [b, c][1..] == [c] && [c][1..] == [];
    var s2 := Step(Step(s, a), b);
    assert Runnable(Step(s2, c), []);
    assert Runnable(s2, [c]) && Run(s2, [c]) == Step(s2, c);
    assert Runnable(Step(s, a), [b, c]);
  }

  /** The table follows its lane: once set on an unsealed table it stays the current session
      through everything but another lane or its own end, and its end leaves none. */
  lemma {:induction false} LaneHolds(s: System, session: Session, events: seq<Event>)
    requires s.t.session == Some(session) && Runnable(s, events)
    requires forall e :: e in events ==> !e.SetLane? && e != LaneDown(session)
    ensures Run(s, events).t.session == Some(session)
    ensures Step(Run(s, events), LaneDown(session)).t.session == None
    decreases |events|
  {
    if events != [] {
      assert events[0] in events && forall e :: e in events[1..] ==> e in events;
      LaneHolds(Step(s, events[0]), session, events[1..]);
    }
  }

  lemma LaneIsSet(s: System, session: Session, events: seq<Event>)
    requires !s.t.sealed && Runnable(Step(s, SetLane(session)), events)
    requires forall e :: e in events ==> !e.SetLane? && e != LaneDown(session)
    ensures Run(Step(s, SetLane(session)), events).t.session == Some(session)
  {
    LaneHolds(Step(s, SetLane(session)), session, events);
  }

  /** A slot prepared on an unsealed table is registered and open, and stays so through
      everything but its own close. */
  lemma {:induction false} SlotStays(s: System, slot: Slot, events: seq<Event>)
    requires slot in s.t.slots && slot !in s.t.closed && Runnable(s, events)
    requires forall e :: e in events ==> e != MarkClosed(slot) && e != CloseSlot(slot)
    ensures slot in Run(s, events).t.slots && slot !in Run(s, events).t.closed
    decreases |events|
  {
    if events != [] {
      assert events[0] in events && forall e :: e in events[1..] ==> e in events;
      SlotStays(Step(s, events[0]), slot, events[1..]);
    }
  }

  lemma PreparedStays(s: System, slot: Slot, events: seq<Event>)
    requires !s.t.sealed && Enabled(s, Prepare(slot)) && Runnable(Step(s, Prepare(slot)), events)
    requires forall e :: e in events ==> e != MarkClosed(slot) && e != CloseSlot(slot)
    ensures var n := Run(Step(s, Prepare(slot)), events); slot in n.t.slots && slot !in n.t.closed
  {
    SlotStays(Step(s, Prepare(slot)), slot, events);
  }

  /** And its close is final: never registered or connected again. */
  lemma {:induction false} CloseIsFinal(s: System, slot: Slot, events: seq<Event>)
    requires slot in s.t.closed && slot !in s.t.slots && slot in s.t.arms && s.t.arms[slot].None? && Runnable(s, events)
    ensures slot !in Run(s, events).t.slots && ArmsOf(Run(s, events).t, slot).None?
    decreases |events|
  {
    if events != [] {
      CloseIsFinal(Step(s, events[0]), slot, events[1..]);
    }
  }

  lemma ClosedForGood(events: seq<Event>, slot: Slot, more: seq<Event>)
    requires Runnable(Start, events) && Enabled(Run(Start, events), CloseSlot(slot))
    requires Runnable(Step(Run(Start, events), CloseSlot(slot)), more)
    ensures var s := Run(Start, events);
            var n := Step(s, CloseSlot(slot));
            && n.owed == s.owed + StreamOf(ArmsOf(s.t, slot))
            && slot !in Run(n, more).t.slots && ArmsOf(Run(n, more).t, slot).None?
  {
    CloseIsFinal(Step(Run(Start, events), CloseSlot(slot)), slot, more);
  }

  /** After every run a dialled stream is installed if and only if the table is unsealed, its
      slot registered and open, and its session and body still current; otherwise it is owed
      a close and the slot is as it was. */
  lemma InstalledIff(events: seq<Event>, w: Worker, bodyCurrent: bool, sessionCurrent: bool)
    requires Runnable(Start, events)
    requires w in Run(Start, events).workers && Run(Start, events).workers[w].Dialed?
    ensures var s := Run(Start, events);
            var Dialed(slot, b) := s.workers[w];
            var n := Step(s, Publish(w, bodyCurrent, sessionCurrent));
            if Ready(s, slot) && s.t.session == Some(b.session) && bodyCurrent && sessionCurrent
            then ArmsOf(n.t, slot) == Some(b) && n.owed == s.owed
            else ArmsOf(n.t, slot) == ArmsOf(s.t, slot) && n.owed == s.owed + {b.stream}
  {
    RunKeepsInv(Start, events);
    var s := Run(Start, events);
    assert ArmsOf(s.t, s.workers[w].slot).None?;
  }

  /** A stream whose session turns out to have ended is withdrawn if it is still the one
      installed, and another's is left alone. */
  lemma LateIsWithdrawn(s: System, w: Worker)
    requires w in s.workers && s.workers[w].Rechecking?
    ensures var Rechecking(slot, b) := s.workers[w];
            var n := Step(s, Recheck(w, false));
            if ArmsOf(s.t, slot) == Some(b) then ArmsOf(n.t, slot).None? && n.owed == s.owed + {b.stream}
            else n.t == s.t && n.owed == s.owed
  {
  }
}
