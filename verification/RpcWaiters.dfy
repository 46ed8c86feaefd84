/** Round trips over a lane: waiters registered under the lane's lock, answered by a
    send outside it, and closed by retirement. */
module RpcWaiters {
  import opened Options

  type Id = nat
  type Frame = nat

  // ------------------------------------------------------- lock-held sections

  /** The lane's guarded fields.  `storage` is whether its sibling stream is attached. */
  datatype Guarded = Guarded(retired: bool, storage: bool, pending: set<Id>)

  function Attached(g: Guarded): (Guarded, bool) {
    if g.retired || g.storage then (g, false) else (g.(storage := true), true)
  }

  function Registered(g: Guarded, id: Id): (Guarded, bool) {
    if g.retired || !g.storage then (g, false) else (g.(pending := g.pending + {id}), true)
  }

  /** Claim the waiter of one reply; the send happens after the lock is released. */
  function Claimed(g: Guarded, id: Id): (Guarded, bool) {
    if g.retired then (g, false) else (g.(pending := g.pending - {id}), id in g.pending)
  }

  function Dropped(g: Guarded, id: Id): Guarded { g.(pending := g.pending - {id}) }

  /** Retirement takes every waiter; they are closed after the lock is released. */
  function Retired(g: Guarded): (Guarded, set<Id>) { (g.(retired := true, pending := {}), g.pending) }

  class LaneTable {
    var retired: bool
    var storage: bool
    var pending: set<Id>

    ghost function View(): Guarded
      reads this
    {
      Guarded(retired, storage, pending)
    }

    constructor ()
      ensures View() == Guarded(false, false, {})
    {
      retired, storage, pending := false, false, {};
    }

    method AttachStorage() returns (ok: bool)
      modifies this
      ensures (View(), ok) == Attached(old(View()))
    {
      if retired || storage {
        return false;
      }
      storage := true;
      return true;
    }

    method Register(id: Id) returns (ok: bool)
      modifies this
      ensures (View(), ok) == Registered(old(View()), id)
    {
      if retired {
        return false;
      }
      if !storage {
        return false;
      }
      pending := pending + {id};
      return true;
    }

    method Claim(id: Id) returns (waiter: bool)
      modifies this
      ensures (View(), waiter) == Claimed(old(View()), id)
    {
      if retired {
        return false;
      }
      waiter := id in pending;
      pending := pending - {id};
    }

    method Retire() returns (waiters: set<Id>)
      modifies this
      ensures (View(), waiters) == Retired(old(View()))
    {
      retired := true;
      waiters := pending;
      pending := {};
    }
  }

  // ----------------------------------------------------------- interleavings

  /** One waiter's channel: what is in it, and how often it was sent on and closed. */
  datatype Chan = Chan(buffer: Option<Frame>, sends: nat, closes: nat)

  datatype Caller = Waiting | Replied(frame: Frame) | Unavailable | Abandoned

  /** `sending` are claims whose send is outstanding; `closing` waiters a retirement
      took and has yet to close. */
  datatype Lane = Lane(
    g: Guarded, chans: map<Id, Chan>, callers: map<Id, Caller>, sending: map<Id, Frame>, closing: set<Id>)

  const Start := Lane(Guarded(false, false, {}), map[], map[], map[], {})

  datatype Event =
    | Attach
    | RoundTrip(id: Id)
    | Claim(id: Id, frame: Frame)
    | Send(id: Id)
    | Retire
    | CloseWaiter(id: Id)
    | Receive(id: Id)
    | GiveUp(id: Id)   // the request could not be sent, the context ended, or the timer fired

  predicate Enabled(l: Lane, e: Event) {
    match e
    case RoundTrip(id) => id !in l.chans && id !in l.callers
    case Send(id) => id in l.sending && id in l.chans
    case CloseWaiter(id) => id in l.closing && id in l.chans
    case Receive(id) => id in l.callers && l.callers[id].Waiting? && id in l.chans
    case GiveUp(id) => id in l.callers && l.callers[id].Waiting?
    case _ => true
  }

  function Step(l: Lane, e: Event): Lane
    requires Enabled(l, e)
  {
    match e
    case Attach => l.(g := Attached(l.g).0)
    case RoundTrip(id) =>
      var (g, ok) := Registered(l.g, id);
      if ok then l.(g := g, chans := l.chans[id := Chan(None, 0, 0)], callers := l.callers[id := Waiting])
      else l.(callers := l.callers[id := Unavailable])
    case Claim(id, frame) =>
      var (g, waiter) := Claimed(l.g, id);
      l.(g := g, sending := if waiter then l.sending[id := frame] else l.sending)
    case Send(id) =>
      l.(sending := l.sending - {id},
         chans := l.chans[id := l.chans[id].(buffer := Some(l.sending[id]), sends := l.chans[id].sends + 1)])
    case Retire => var (g, taken) := Retired(l.g); l.(g := g, closing := l.closing + taken)
    case CloseWaiter(id) =>
      l.(closing := l.closing - {id}, chans := l.chans[id := l.chans[id].(closes := l.chans[id].closes + 1)])
    case Receive(id) =>
      var c := l.chans[id];
      if c.buffer.Some? then
        l.(callers := l.callers[id := Replied(c.buffer.value)], chans := l.chans[id := c.(buffer := None)])
      else if 0 < c.closes then l.(callers := l.callers[id := Unavailable])
      else l
    case GiveUp(id) => l.(g := Dropped(l.g, id), callers := l.callers[id := Abandoned])
  }

  /** A waiter's channel has one owner of its single send-or-close. */
  ghost predicate OneOwner(l: Lane, id: Id)
    requires id in l.chans
  {
    var c := l.chans[id];
    var owed := (if id in l.g.pending then 1 else 0) + (if id in l.sending then 1 else 0) + (if id in l.closing then 1 else 0);
    && c.sends + c.closes + owed <= 1
    && (c.buffer.Some? ==> c.sends == 1)
  }

  ghost predicate Inv(l: Lane) {
    && (forall id :: id in l.chans ==> OneOwner(l, id))
    && l.g.pending <= l.chans.Keys && l.sending.Keys <= l.chans.Keys && l.closing <= l.chans.Keys
    && (l.g.retired ==> l.g.pending == {})
    && (forall id :: id in l.callers && l.callers[id].Replied? ==> id in l.chans && l.chans[id].sends == 1)
  }

  lemma StepKeepsInv(l: Lane, e: Event)
    requires Inv(l) && Enabled(l, e)
    ensures Inv(Step(l, e))
  {
    var n := Step(l, e);
    forall id | id in n.chans
      ensures OneOwner(n, id)
    {
      if id in l.chans {
        assert OneOwner(l, id);
      }
    }
  }

  ghost predicate Runnable(l: Lane, events: seq<Event>)
    decreases |events|
  {
    events == [] || (Enabled(l, events[0]) && Runnable(Step(l, events[0]), events[1..]))
  }

  ghost function Run(l: Lane, events: seq<Event>): Lane
    requires Runnable(l, events)
    decreases |events|
  {
    if events == [] then l else Run(Step(l, events[0]), events[1..])
  }

  lemma {:induction false} RunKeepsInv(l: Lane, events: seq<Event>)
    requires Inv(l) && Runnable(l, events)
    ensures Inv(Run(l, events))
    decreases |events|
  {
    if events != [] {
      StepKeepsInv(l, events[0]);
      RunKeepsInv(Step(l, events[0]), events[1..]);
    }
  }

  /** Over every interleaving: a waiter's channel is sent on or closed at most once
      and never both, so no send hits a closed channel, none blocks on a full one
      and none closes twice; and a retired lane holds no waiter. */
  lemma OneAnswerEach(events: seq<Event>)
    requires Runnable(Start, events)
    ensures var l := Run(Start, events);
            && (forall id :: id in l.chans ==> l.chans[id].sends + l.chans[id].closes <= 1)
            && (forall id :: id in l.sending && id in l.chans ==> l.chans[id].closes == 0 && l.chans[id].buffer.None?)
            && (l.g.retired ==> l.g.pending == {})
            && (forall id :: id in l.callers && l.callers[id].Replied? ==> id in l.chans && l.chans[id].closes == 0)
  {
    RunKeepsInv(Start, events);
    var l := Run(Start, events);
    assert forall id :: id in l.chans ==> OneOwner(l, id);
  }

  /** After retirement no waiter is ever registered again. */
  lemma {:induction false} RetiredStaysEmpty(l: Lane, events: seq<Event>)
    requires l.g.retired && l.g.pending == {} && Runnable(l, events)
    ensures var n := Run(l, events); n.g.retired && n.g.pending == {} && n.chans.Keys == l.chans.Keys
    decreases |events|
  {
    if events != [] {
      RetiredStaysEmpty(Step(l, events[0]), events[1..]);
    }
  }

  /** No waiter is forgotten: whoever still waits is registered, about to be sent to
      or closed, or has its answer in the channel already. */
  ghost predicate Reachable(l: Lane, id: Id) {
    id in l.chans &&
    (id in l.g.pending || id in l.sending || id in l.closing || l.chans[id].buffer.Some? || 0 < l.chans[id].closes)
  }

  ghost predicate NoneForgotten(l: Lane) {
    forall id :: id in l.callers && l.callers[id].Waiting? ==> Reachable(l, id)
  }

  lemma {:induction false} NoWaiterIsForgotten(l: Lane, events: seq<Event>)
    requires Inv(l) && NoneForgotten(l) && Runnable(l, events)
    ensures NoneForgotten(Run(l, events))
    decreases |events|
  {
    if events != [] {
      StepForgetsNone(l, events[0]);
      StepKeepsInv(l, events[0]);
      NoWaiterIsForgotten(Step(l, events[0]), events[1..]);
    }
  }

  lemma StepForgetsNone(l: Lane, e: Event)
    requires Inv(l) && NoneForgotten(l) && Enabled(l, e)
    ensures NoneForgotten(Step(l, e))
  {
    var n := Step(l, e);
    forall id | id in n.callers && n.callers[id].Waiting?
      ensures Reachable(n, id)
    {
      if id in l.callers {
        assert Reachable(l, id);
      }
    }
  }

  // ----------------------------------------------------------- whose frame

  /** The frame a reply carried for a waiter, as far as the lane has it. */
  ghost predicate FrameOf(l: Lane, id: Id, frame: Frame) {
    || (id in l.sending && l.sending[id] == frame)
    || (id in l.chans && l.chans[id].buffer == Some(frame))
    || (id in l.callers && l.callers[id] == Replied(frame))
  }

  /** Every frame in the lane came with a claim of that waiter. */
  ghost predicate FramesClaimed(l: Lane, claims: set<(Id, Frame)>) {
    forall id: Id, frame: Frame :: FrameOf(l, id, frame) ==> (id, frame) in claims
  }

  function ClaimOf(e: Event): set<(Id, Frame)> {
    if e.Claim? then {(e.id, e.frame)} else {}
  }

  lemma StepClaims(l: Lane, claims: set<(Id, Frame)>, e: Event)
    requires FramesClaimed(l, claims) && Enabled(l, e)
    ensures FramesClaimed(Step(l, e), claims + ClaimOf(e))
  {
    var n := Step(l, e);
    forall id: Id, frame: Frame | FrameOf(n, id, frame)
      ensures (id, frame) in claims + ClaimOf(e)
    {
      assert FrameOf(l, id, frame) || (id, frame) in ClaimOf(e);
    }
  }

  lemma {:induction false} RunClaims(l: Lane, claims: set<(Id, Frame)>, events: seq<Event>)
    requires FramesClaimed(l, claims) && Runnable(l, events)
    ensures forall id: Id, frame: Frame :: FrameOf(Run(l, events), id, frame) ==> (id, frame) in claims || Claim(id, frame) in events
    decreases |events|
  {
    if events != [] {
      StepClaims(l, claims, events[0]);
      RunClaims(Step(l, events[0]), claims + ClaimOf(events[0]), events[1..]);
      assert forall e :: e in events[1..] ==> e in events;
      assert events[0] in events;
    }
  }

  /** Over every interleaving a caller is handed a frame only if a reply with that frame
      claimed its own waiter. */
  lemma RepliesAreClaimed(events: seq<Event>, id: Id, frame: Frame)
    requires Runnable(Start, events)
    requires id in Run(Start, events).callers && Run(Start, events).callers[id] == Replied(frame)
    ensures Claim(id, frame) in events
  {
    RunClaims(Start, {}, events);
    assert FrameOf(Run(Start, events), id, frame);
  }

  /** And a claim of a registered waiter, sent and received, hands its caller that frame. */
  lemma ClaimIsAnswered(events: seq<Event>, id: Id, frame: Frame)
    requires Runnable(Start, events)
    requires var l := Run(Start, events); id in l.g.pending && id in l.callers && l.callers[id].Waiting?
    ensures var l := Run(Start, events);
            var l1 := Step(l, Claim(id, frame));
            && Enabled(l1, Send(id))
            && var l2 := Step(l1, Send(id));
               && Enabled(l2, Receive(id))
               && Step(l2, Receive(id)).callers[id] == Replied(frame)
  {
    RunKeepsInv(Start, events);
    assert OneOwner(Run(Start, events), id);
  }

  // ---------------------------------------------------- who registers and who stays

  lemma {:induction false} RunGuards(l: Lane, events: seq<Event>)
    requires Runnable(l, events)
    ensures var n := Run(l, events);
            && n.g.retired == (l.g.retired || Retire in events)
            && (!n.g.retired ==> n.g.storage == (l.g.storage || Attach in events))
    decreases |events|
  {
    if events != [] {
      RunGuards(Step(l, events[0]), events[1..]);
      assert events == [events[0]] + events[1..];
    }
  }

  /** After every run a round trip registers its waiter if and only if storage was attached
      and the lane never retired; otherwise the caller is told it is unavailable at once. */
  lemma RegistersIff(events: seq<Event>, id: Id)
    requires Runnable(Start, events) && Enabled(Run(Start, events), RoundTrip(id))
    ensures var n := Step(Run(Start, events), RoundTrip(id));
            if Attach in events && Retire !in events then id in n.g.pending && n.callers[id].Waiting?
            else n.callers[id].Unavailable?
  {
    RunGuards(Start, events);
  }

  /** A registered waiter has its caller waiting, so one that gave up leaves nothing behind. */
  ghost predicate PendingWaits(l: Lane) {
    forall id :: id in l.g.pending ==> id in l.callers && l.callers[id].Waiting?
  }

  lemma {:induction false} NoWaiterLeaks(l: Lane, events: seq<Event>)
    requires Inv(l) && PendingWaits(l) && Runnable(l, events)
    ensures PendingWaits(Run(l, events))
    decreases |events|
  {
    if events != [] {
      StepKeepsInv(l, events[0]);
      assert PendingWaits(Step(l, events[0])) by {
        if events[0].Receive? && events[0].id in l.g.pending { assert OneOwner(l, events[0].id); }
      }
      NoWaiterLeaks(Step(l, events[0]), events[1..]);
    }
  }
}
