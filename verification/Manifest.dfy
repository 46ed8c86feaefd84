/** A seat's manifest projection: it watches one handle through the hub and shows the
    words the attached handle last described.  Notices are delivered outside the
    hub's lock, in any order, and a describe call may still be in flight when the
    handle is replaced or detached. */
module Manifest {
  import opened Options
  import opened MemberHub

  datatype Fault = Unreachable | DescribeFailed(reason: string)

  /** What a describe call came back with: the words decoded, and the error if it failed, in
      the call, in decoding or in validation. */
  datatype Answer = Answer(words: Option<string>, fault: Option<Fault>)

  /** `shown` is the answer last taken, None for "unreachable, no words". */
  datatype Projection = Projection(generation: nat, detached: nat, shown: Option<Answer>)

  const BLANK := Projection(0, 0, None)

  predicate Stale(p: Projection, n: Notice) { n.generation < p.generation }

  /** The first critical section of a refresh. */
  function Begun(p: Projection, n: Notice): Projection {
    if Stale(p, n) then p
    else Projection(n.generation, if n.call.None? then n.generation else p.detached, None)
  }

  /** The second one, once the describe call returned. */
  function Finished(p: Projection, generation: nat, a: Answer): Projection {
    if generation != p.generation || p.detached == generation then p else p.(shown := Some(a))
  }

  /** What a reader of the seat is told. */
  function Reading(p: Projection): Answer {
    match p.shown
    case None => Answer(None, Some(Unreachable))
    case Some(a) => a
  }

  class ManifestProjection {
    var generation: nat
    var detachedGeneration: nat
    var words: Option<Answer>

    function View(): Projection
      reads this
    {
      Projection(generation, detachedGeneration, words)
    }

    constructor ()
      ensures View() == BLANK
    {
      generation, detachedGeneration, words := 0, 0, None;
    }

    method Begin(n: Notice) returns (describe: bool)
      modifies this
      ensures View() == Begun(old(View()), n)
      ensures describe <==> !Stale(old(View()), n) && n.call.Some?
    {
      if n.generation < generation {
        return false;
      }
      generation := n.generation;
      words := None;
      if n.call.None? {
        detachedGeneration := n.generation;
      }
      describe := n.call.Some?;
    }

    method Finish(n: Notice, a: Answer)
      modifies this
      ensures View() == Finished(old(View()), n.generation, a)
    {
      if n.generation != generation {
        return;
      }
      if detachedGeneration == n.generation {
        return;
      }
      words := Some(a);
    }

    method Read() returns (read: Option<string>, fault: Option<Fault>)
      ensures Answer(read, fault) == Reading(View())
    {
      match words
      case None => read, fault := None, Some(Unreachable);
      case Some(a) => read, fault := a.words, a.fault;
    }
  }

  // -------------------------------------------------------------- whole runs

  /** A release closure somebody holds. */
  datatype Grant = Grant(pair: Pair, side: bool, generation: nat, call: Call)

  /** The hub and one seat watching the handle of `me`.  `watcher` is 0 before it
      watches; `issued`, `seen` and `answers` remember the past. */
  datatype World = World(
    hub: Hub, grants: set<Grant>,
    me: Pair, watcher: nat,
    bag: multiset<Notice>, calls: multiset<Notice>,
    p: Projection,
    issued: set<Notice>, seen: set<Notice>, answers: set<(Notice, Answer)>)
  {
    function Handle(): Endpoint { hub.At(me).handle }

    function Issue(n: Notice): World {
      this.(bag := bag + multiset{n}, issued := issued + {n})
    }

    /** A notice reaches this seat if its watcher was captured with it. */
    function Notify(captured: set<nat>, pair: Pair, n: Notice): World {
      if pair == me && watcher in captured then Issue(n) else this
    }
  }

  datatype Event =
    | Attach(pair: Pair, side: bool, call: Call)
    | Release(grant: Grant)
    | WatchOther(pair: Pair)
    | UnwatchOther(pair: Pair, watcher: nat)
    | WatchOwn
    | Deliver(notice: Notice)
    | Describe(notice: Notice, answer: Answer)

  ghost predicate Enabled(w: World, e: Event) {
    match e
    case Attach(pair, side, _) => pair.Valid() && w.hub.At(pair).Slot(side).call.None?
    case Release(grant) => grant in w.grants
    case WatchOther(pair) => pair.Valid()
    case UnwatchOther(_, watcher) => watcher != w.watcher
    case WatchOwn => w.watcher == 0
    case Deliver(notice) => notice in w.bag
    case Describe(notice, _) => notice in w.calls
  }

  function Step(w: World, e: Event): World {
    match e
    case Attach(pair, side, call) =>
      var g := w.hub.next + 1;
      var n := w.(hub := Attached(w.hub, pair, side, call), grants := w.grants + {Grant(pair, side, g, call)});
      if side then n else n.Notify(w.hub.At(pair).watchers, pair, Notice(g, Some(call)))
    case Release(grant) =>
      var n := w.(hub := Released(w.hub, grant.pair, grant.side, grant.generation), grants := w.grants - {grant});
      if !grant.side && w.hub.At(grant.pair).handle.generation == grant.generation
      then n.Notify(w.hub.At(grant.pair).watchers, grant.pair, Notice(grant.generation, None))
      else n
    case WatchOther(pair) => w.(hub := Watched(w.hub, pair))
    case UnwatchOther(pair, watcher) => w.(hub := Unwatched(w.hub, pair, watcher))
    case WatchOwn =>
      w.(hub := Watched(w.hub, w.me), watcher := w.hub.next + 1).Issue(Notice(w.Handle().generation, w.Handle().call))
    case Deliver(n) =>
      w.(bag := w.bag - multiset{n}, seen := w.seen + {n}, p := Begun(w.p, n),
         calls := if !Stale(w.p, n) && n.call.Some? then w.calls + multiset{n} else w.calls)
    case Describe(n, a) =>
      w.(calls := w.calls - multiset{n}, answers := w.answers + {(n, a)}, p := Finished(w.p, n.generation, a))
  }

  predicate Holds(h: Hub, o: Grant) {
    0 < o.generation && h.At(o.pair).Slot(o.side) == Endpoint(o.generation, Some(o.call))
  }

  predicate SlotOwned(h: Hub, grants: set<Grant>, p: Pair, side: bool) {
    var slot := h.At(p).Slot(side);
    slot.call.Some? ==> Grant(p, side, slot.generation, slot.call.value) in grants
  }

  /** Slots and release closures agree: each occupied slot has exactly one owner. */
  ghost predicate Owned(w: World) {
    && w.hub.Sound()
    && (forall o :: o in w.grants ==> Holds(w.hub, o))
    && (forall p, side :: SlotOwned(w.hub, w.grants, p, side))
  }

  /** What the seat has been told about its handle, as far as the link `l` goes. */
  ghost predicate ToldOf(l: Link, next: nat, watcher: nat, issued: set<Notice>) {
    && (watcher == 0 ==> issued == {})
    && (watcher != 0 ==> watcher in l.watchers)
    && (watcher != 0 && l.handle.call.Some? ==> Notice(l.handle.generation, l.handle.call) in issued)
    && (forall n :: n in issued ==> n.generation <= next && (n.call.Some? ==> 0 < n.generation))
    && (forall n :: n in issued && l.handle.call.Some? ==>
          n.generation <= l.handle.generation && (n.call.None? ==> n.generation < l.handle.generation))
    && (forall n :: n in issued && n.call.Some? ==>
          Endpoint(n.generation, n.call) == l.handle || Notice(n.generation, None) in issued)
  }

  ghost predicate Told(w: World) { ToldOf(w.hub.At(w.me), w.hub.next, w.watcher, w.issued) }

  ghost predicate TrackedOf(issued: set<Notice>, bag: multiset<Notice>, seen: set<Notice>,
                            calls: multiset<Notice>, answers: set<(Notice, Answer)>)
  {
    && (forall n :: n in issued <==> n in bag || n in seen)
    && (forall n :: n in calls ==> n in issued && n.call.Some?)
    && (forall x :: x in answers ==> x.0 in issued && x.0.call.Some?)
  }

  ghost predicate Tracked(w: World) { TrackedOf(w.issued, w.bag, w.seen, w.calls, w.answers) }

  /** The projection as a function of what it was told. */
  ghost predicate ShowsOf(p: Projection, seen: set<Notice>, calls: multiset<Notice>, answers: set<(Notice, Answer)>) {
    && (forall n :: n in seen ==> n.generation <= p.generation)
    && (p.generation != 0 ==> exists n :: n in seen && n.generation == p.generation)
    && p.detached <= p.generation
    && (p.detached == p.generation <==> p.generation == 0 || Notice(p.generation, None) in seen)
    && (p.shown.Some? ==> p.detached != p.generation &&
                          exists n :: (n, p.shown.value) in answers && n.generation == p.generation)
    && (p.shown.None? && p.detached != p.generation ==> exists n :: n in calls && n.generation == p.generation)
  }

  ghost predicate Shows(w: World) { ShowsOf(w.p, w.seen, w.calls, w.answers) }

  ghost predicate Inv(w: World) { Owned(w) && Told(w) && Tracked(w) && Shows(w) }

  lemma AttachKeepsOwned(w: World, e: Event)
    requires Owned(w) && e.Attach? && Enabled(w, e)
    ensures Owned(Step(w, e))
  {
    AttachedSound(w.hub, e.pair, e.side, e.call);
    var n := Step(w, e);
    forall o | o in n.grants
      ensures Holds(n.hub, o)
    {
      if o in w.grants { assert Holds(w.hub, o); }
      if o.pair != e.pair { assert n.hub.At(o.pair) == w.hub.At(o.pair); }
    }
    forall p, side
      ensures SlotOwned(n.hub, n.grants, p, side)
    {
      assert SlotOwned(w.hub, w.grants, p, side);
      if p != e.pair { assert n.hub.At(p) == w.hub.At(p); }
    }
  }

  lemma ReleaseKeepsOwned(w: World, e: Event)
    requires Owned(w) && e.Release? && Enabled(w, e)
    ensures Owned(Step(w, e))
  {
    var o := e.grant;
    assert Holds(w.hub, o);
    ReleasedSound(w.hub, o.pair, o.side, o.generation);
    var n := Step(w, e);
    forall x | x in n.grants
      ensures Holds(n.hub, x)
    {
      assert Holds(w.hub, x);
      if x.pair != o.pair { assert n.hub.At(x.pair) == w.hub.At(x.pair); }
    }
    forall p, side
      ensures SlotOwned(n.hub, n.grants, p, side)
    {
      assert SlotOwned(w.hub, w.grants, p, side);
      if p != o.pair { assert n.hub.At(p) == w.hub.At(p); }
    }
  }

  lemma SameSlotsOwned(w: World, hub: Hub)
    requires Owned(w) && hub.Sound()
    requires forall p :: hub.At(p).seat == w.hub.At(p).seat && hub.At(p).handle == w.hub.At(p).handle
    ensures Owned(w.(hub := hub))
  {
    forall o | o in w.grants
      ensures Holds(hub, o)
    {
      assert Holds(w.hub, o);
    }
    forall p, side
      ensures SlotOwned(hub, w.grants, p, side)
    {
      assert SlotOwned(w.hub, w.grants, p, side);
    }
  }

  lemma WatchKeepsOwned(w: World, pair: Pair)
    requires Owned(w)
    ensures Owned(w.(hub := Watched(w.hub, pair)))
  {
    WatchedSound(w.hub, pair);
    SameSlotsOwned(w, Watched(w.hub, pair));
  }

  lemma UnwatchKeepsOwned(w: World, pair: Pair, g: nat)
    requires Owned(w)
    ensures Owned(w.(hub := Unwatched(w.hub, pair, g)))
  {
    UnwatchedSound(w.hub, pair, g);
    SameSlotsOwned(w, Unwatched(w.hub, pair, g));
  }

  lemma AttachTold(l: Link, next: nat, watcher: nat, issued: set<Notice>, call: Call)
    requires l.Within(next) && ToldOf(l, next, watcher, issued) && l.handle.call.None?
    ensures ToldOf(l.(handle := Endpoint(next + 1, Some(call))), next + 1, watcher,
                   if watcher in l.watchers then issued + {Notice(next + 1, Some(call))} else issued)
  {
  }

  lemma DetachTold(l: Link, next: nat, watcher: nat, issued: set<Notice>)
    requires l.Within(next) && ToldOf(l, next, watcher, issued) && l.handle.call.Some?
    ensures ToldOf(l.(handle := FREE), next, watcher,
                   if watcher in l.watchers then issued + {Notice(l.handle.generation, None)} else issued)
  {
  }

  lemma AttachKeepsTold(w: World, e: Event)
    requires Owned(w) && Told(w) && e.Attach? && Enabled(w, e)
    ensures Told(Step(w, e))
  {
    AttachedSound(w.hub, e.pair, e.side, e.call);
    if e.pair != w.me {
      assert Step(w, e).hub.At(w.me) == w.hub.At(w.me);
    } else if !e.side {
      AttachTold(w.hub.At(w.me), w.hub.next, w.watcher, w.issued, e.call);
    }
  }

  lemma ReleaseKeepsTold(w: World, e: Event)
    requires Owned(w) && Told(w) && e.Release? && Enabled(w, e)
    ensures Told(Step(w, e))
  {
    ReleasedSound(w.hub, e.grant.pair, e.grant.side, e.grant.generation);
    if e.grant.pair != w.me {
      assert Step(w, e).hub.At(w.me) == w.hub.At(w.me);
    } else if !e.grant.side {
      assert Holds(w.hub, e.grant);
      DetachTold(w.hub.At(w.me), w.hub.next, w.watcher, w.issued);
    }
  }

  lemma WatchKeepsTold(w: World, e: Event)
    requires Owned(w) && Told(w) && (e.WatchOther? || e.UnwatchOther?) && Enabled(w, e)
    ensures Told(Step(w, e))
  {
    if e.UnwatchOther? { UnwatchedSound(w.hub, e.pair, e.watcher); } else { WatchedSound(w.hub, e.pair); }
    if e.pair != w.me { assert Step(w, e).hub.At(w.me) == w.hub.At(w.me); }
  }

  lemma WatchOwnKeepsTold(w: World)
    requires Owned(w) && Told(w) && w.watcher == 0
    ensures Told(Step(w, WatchOwn))
  {
    WatchedSound(w.hub, w.me);
    assert SlotOwned(w.hub, w.grants, w.me, false);
    var handle := w.Handle();
    if handle.call.Some? {
      assert Holds(w.hub, Grant(w.me, false, handle.generation, handle.call.value));
    }
  }

  lemma StepKeepsOwned(w: World, e: Event)
    requires Owned(w) && Enabled(w, e)
    ensures Owned(Step(w, e))
  {
    match e
    case Attach(_, _, _) => AttachKeepsOwned(w, e);
    case Release(_) => ReleaseKeepsOwned(w, e);
    case WatchOther(pair) => WatchKeepsOwned(w, pair);
    case UnwatchOther(pair, g) => UnwatchKeepsOwned(w, pair, g);
    case WatchOwn => WatchKeepsOwned(w, w.me);
    case Deliver(_) =>
    case Describe(_, _) =>
  }

  lemma StepKeepsTold(w: World, e: Event)
    requires Owned(w) && Told(w) && Enabled(w, e)
    ensures Told(Step(w, e))
  {
    match e
    case Attach(_, _, _) => AttachKeepsTold(w, e);
    case Release(_) => ReleaseKeepsTold(w, e);
    case WatchOther(_) => WatchKeepsTold(w, e);
    case UnwatchOther(_, _) => WatchKeepsTold(w, e);
    case WatchOwn => WatchOwnKeepsTold(w);
    case Deliver(_) =>
    case Describe(_, _) =>
  }

  predicate OnHub(e: Event) { !e.Deliver? && !e.Describe? }

  /** A hub event touches the seat only by issuing it a notice. */
  lemma HubOnlyIssues(w: World, e: Event) returns (n: Notice)
    requires OnHub(e)
    ensures var next := Step(w, e);
            && next.p == w.p && next.seen == w.seen && next.calls == w.calls && next.answers == w.answers
            && ((next.bag == w.bag && next.issued == w.issued) ||
                (next.bag == w.bag + multiset{n} && next.issued == w.issued + {n}))
  {
    match e
    case Attach(_, _, call) => n := Notice(w.hub.next + 1, Some(call));
    case Release(grant) => n := Notice(grant.generation, None);
    case WatchOther(_) => n := Notice(0, None);
    case UnwatchOther(_, _) => n := Notice(0, None);
    case WatchOwn => n := Notice(w.Handle().generation, w.Handle().call);
  }

  lemma IssueTracked(issued: set<Notice>, bag: multiset<Notice>, seen: set<Notice>,
                     calls: multiset<Notice>, answers: set<(Notice, Answer)>, n: Notice)
    requires TrackedOf(issued, bag, seen, calls, answers)
    ensures TrackedOf(issued + {n}, bag + multiset{n}, seen, calls, answers)
  {
  }

  lemma DeliverTracked(issued: set<Notice>, bag: multiset<Notice>, seen: set<Notice>,
                       calls: multiset<Notice>, answers: set<(Notice, Answer)>, n: Notice, describes: bool)
    requires TrackedOf(issued, bag, seen, calls, answers) && n in bag && (describes ==> n.call.Some?)
    ensures TrackedOf(issued, bag - multiset{n}, seen + {n}, if describes then calls + multiset{n} else calls, answers)
  {
  }

  lemma DescribeTracked(issued: set<Notice>, bag: multiset<Notice>, seen: set<Notice>,
                        calls: multiset<Notice>, answers: set<(Notice, Answer)>, n: Notice, a: Answer)
    requires TrackedOf(issued, bag, seen, calls, answers) && n in calls
    ensures TrackedOf(issued, bag, seen, calls - multiset{n}, answers + {(n, a)})
  {
  }

  lemma StepKeepsTracked(w: World, e: Event)
    requires Tracked(w) && Enabled(w, e)
    ensures Tracked(Step(w, e))
  {
    if e.Deliver? {
      DeliverTracked(w.issued, w.bag, w.seen, w.calls, w.answers, e.notice, !Stale(w.p, e.notice) && e.notice.call.Some?);
    } else if e.Describe? {
      DescribeTracked(w.issued, w.bag, w.seen, w.calls, w.answers, e.notice, e.answer);
    } else {
      var n := HubOnlyIssues(w, e);
      IssueTracked(w.issued, w.bag, w.seen, w.calls, w.answers, n);
    }
  }

  lemma DeliverShows(p: Projection, seen: set<Notice>, calls: multiset<Notice>, answers: set<(Notice, Answer)>, n: Notice)
    requires ShowsOf(p, seen, calls, answers) && (n.call.Some? ==> 0 < n.generation)
    ensures ShowsOf(Begun(p, n), seen + {n},
                    if !Stale(p, n) && n.call.Some? then calls + multiset{n} else calls, answers)
  {
    assert n in seen + {n} && n in calls + multiset{n};
  }

  lemma DescribeShows(p: Projection, seen: set<Notice>, calls: multiset<Notice>, answers: set<(Notice, Answer)>, n: Notice, a: Answer)
    requires ShowsOf(p, seen, calls, answers) && n in calls
    ensures ShowsOf(Finished(p, n.generation, a), seen, calls - multiset{n}, answers + {(n, a)})
  {
    assert (n, a) in answers + {(n, a)};
    if p.shown.Some? {
      var m :| (m, p.shown.value) in answers && m.generation == p.generation;
      assert (m, p.shown.value) in answers + {(n, a)};
    } else if p.detached != p.generation {
      var m :| m in calls && m.generation == p.generation;
      assert m != n ==> m in calls - multiset{n};
    }
  }

  lemma StepKeepsShows(w: World, e: Event)
    requires Told(w) && Tracked(w) && Shows(w) && Enabled(w, e)
    ensures Shows(Step(w, e))
  {
    if e.Deliver? {
      DeliverShows(w.p, w.seen, w.calls, w.answers, e.notice);
    } else if e.Describe? {
      DescribeShows(w.p, w.seen, w.calls, w.answers, e.notice, e.answer);
    } else {
      var n := HubOnlyIssues(w, e);
    }
  }

  lemma StepKeepsInv(w: World, e: Event)
    requires Inv(w) && Enabled(w, e)
    ensures Inv(Step(w, e))
  {
    StepKeepsOwned(w, e);
    StepKeepsTold(w, e);
    StepKeepsTracked(w, e);
    StepKeepsShows(w, e);
  }

  ghost predicate Runnable(w: World, events: seq<Event>)
    decreases |events|
  {
    events == [] || (Enabled(w, events[0]) && Runnable(Step(w, events[0]), events[1..]))
  }

  function Run(w: World, events: seq<Event>): World
    decreases |events|
  {
    if events == [] then w else Run(Step(w, events[0]), events[1..])
  }

  function Start(me: Pair): World {
    World(Hub(0, map[]), {}, me, 0, multiset{}, multiset{}, BLANK, {}, {}, {})
  }

  lemma {:induction false} RunKeepsInv(w: World, events: seq<Event>)
    requires Inv(w) && Runnable(w, events)
    ensures Inv(Run(w, events))
    decreases |events|
  {
    if events != [] {
      StepKeepsInv(w, events[0]);
      RunKeepsInv(Step(w, events[0]), events[1..]);
    }
  }

  /** In every run each slot has at most one owner, an owner's port is the one the hub
      routes to, and a slot nobody owns routes nowhere: no release evicts a successor. */
  lemma OneOwnerEach(me: Pair, events: seq<Event>, pair: Pair, side: bool)
    requires Runnable(Start(me), events)
    ensures var w := Run(Start(me), events);
            && (forall a, b | a in w.grants && b in w.grants && a.pair == b.pair == pair && a.side == b.side == side :: a == b)
            && (forall c :: w.hub.At(pair).Slot(side).call == Some(c) <==>
                  exists o :: o in w.grants && o.pair == pair && o.side == side && o.call == c)
  {
    RunKeepsInv(Start(me), events);
    var w := Run(Start(me), events);
    var slot := w.hub.At(pair).Slot(side);
    assert forall o :: o in w.grants ==> Holds(w.hub, o);
    if slot.call.Some? {
      assert SlotOwned(w.hub, w.grants, pair, side);
      var o := Grant(pair, side, slot.generation, slot.call.value);
      assert o in w.grants && o.pair == pair && o.side == side && o.call == slot.call.value;
    }
  }

  /** However notices and describe answers interleave, words shown were described by
      the newest generation the seat has been told of, and its detach has not been
      reported. */
  lemma WordsAreCurrent(me: Pair, events: seq<Event>)
    requires Runnable(Start(me), events)
    ensures var w := Run(Start(me), events);
            w.p.shown.Some? ==>
              exists n :: && (n, w.p.shown.value) in w.answers
                          && Notice(n.generation, None) !in w.seen
                          && forall m :: m in w.seen ==> m.generation <= n.generation
  {
    RunKeepsInv(Start(me), events);
  }

  /** Once nothing is in flight, a watching seat reads what the attached handle itself
      answered, words or error, and "unreachable" when none is attached.  So it reads without
      error only from an attached handle whose own describe succeeded. */
  lemma SettledSeatIsExact(me: Pair, events: seq<Event>)
    requires Runnable(Start(me), events)
    requires var w := Run(Start(me), events); w.watcher != 0 && w.bag == multiset{} && w.calls == multiset{}
    ensures var w := Run(Start(me), events);
            if w.Handle().call.Some? then (Notice(w.Handle().generation, w.Handle().call), Reading(w.p)) in w.answers
            else Reading(w.p) == Answer(None, Some(Unreachable))
  {
    RunKeepsInv(Start(me), events);
    SettledIsExact(Run(Start(me), events));
  }

  lemma SettledIsExact(w: World)
    requires Inv(w) && w.watcher != 0 && w.bag == multiset{} && w.calls == multiset{}
    ensures w.p.shown.Some? <==> w.Handle().call.Some?
    ensures w.p.shown.Some? ==> (Notice(w.Handle().generation, w.Handle().call), w.p.shown.value) in w.answers
  {
    if w.p.generation != 0 {
      var n :| n in w.seen && n.generation == w.p.generation;
      assert n in w.issued;
    }
    if w.Handle().call.Some? {
      assert Notice(w.Handle().generation, w.Handle().call) in w.seen;
    }
  }
}
