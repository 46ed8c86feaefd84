/** The bounded work deque between the pump and the worker: it evicts the oldest
    event to seat a newcomer and never evicts a request. */
module WorkDeque {
  import opened Options

  type Id = string

  /** `describe` marks the introspection request the pump answers itself. */
  datatype Envelope = Event(id: Id) | Request(id: Id, describe: bool)

  function Requests(items: seq<Envelope>): seq<Envelope> {
    if items == [] then []
    else (if items[0].Request? then [items[0]] else []) + Requests(items[1..])
  }

  function Events(items: seq<Envelope>): seq<Envelope> {
    if items == [] then []
    else (if items[0].Event? then [items[0]] else []) + Events(items[1..])
  }

  lemma {:induction false} Associates(a: seq<Envelope>, b: seq<Envelope>, c: seq<Envelope>)
    ensures a + b + c == a + (b + c)
  {
  }

  lemma {:induction false} RequestsConcat(a: seq<Envelope>, b: seq<Envelope>)
    ensures Requests(a + b) == Requests(a) + Requests(b)
  {
    if a == [] {
      assert a + b == b;
    } else {
      assert (a + b)[1..] == a[1..] + b;
      RequestsConcat(a[1..], b);
      Associates(if a[0].Request? then [a[0]] else [], Requests(a[1..]), Requests(b));
    }
  }

  lemma {:induction false} EventsConcat(a: seq<Envelope>, b: seq<Envelope>)
    ensures Events(a + b) == Events(a) + Events(b)
  {
    if a == [] {
      assert a + b == b;
    } else {
      assert (a + b)[1..] == a[1..] + b;
      EventsConcat(a[1..], b);
      Associates(if a[0].Event? then [a[0]] else [], Events(a[1..]), Events(b));
    }
  }

  /** The oldest event's index, or the length when every item is a request. */
  function OldestEvent(items: seq<Envelope>): (i: nat)
    ensures i <= |items|
    ensures i < |items| ==> items[i].Event?
    ensures forall j :: 0 <= j < i ==> items[j].Request?
  {
    if items == [] || items[0].Event? then 0 else 1 + OldestEvent(items[1..])
  }

  function DropOldestEvent(items: seq<Envelope>): seq<Envelope> {
    if items == [] then []
    else if items[0].Event? then items[1..]
    else [items[0]] + DropOldestEvent(items[1..])
  }

  lemma {:induction false} DropSplit(head: seq<Envelope>, rest: seq<Envelope>)
    requires rest != [] && rest[0].Event?
    requires forall i :: 0 <= i < |head| ==> head[i].Request?
    ensures DropOldestEvent(head + rest) == head + rest[1..]
  {
    if head == [] {
      assert head + rest == rest;
    } else {
      DropSplit(head[1..], rest);
      assert (head + rest)[1..] == head[1..] + rest;
    }
  }

  /** The queue after a push, and what was dropped for it. */
  function Pushed(items: seq<Envelope>, cap: nat, env: Envelope): (seq<Envelope>, Option<Envelope>) {
    if |items| < cap then (items + [env], None)
    else
      var i := OldestEvent(items);
      if i < |items| then (DropOldestEvent(items) + [env], Some(items[i])) else (items, Some(env))
  }

  /** A newcomer is refused exactly when the queue is full of requests. */
  predicate Refuses(items: seq<Envelope>, cap: nat) {
    cap <= |items| && forall e :: e in items ==> e.Request?
  }

  lemma {:induction false} AllRequestsAreRequests(items: seq<Envelope>)
    requires forall e :: e in items ==> e.Request?
    ensures Requests(items) == items && Events(items) == []
  {
    if items != [] {
      AllRequestsAreRequests(items[1..]);
    }
  }

  /** Dropping the oldest event changes no request and takes the events' head. */
  lemma {:induction false} DropKeepsOrder(items: seq<Envelope>)
    requires OldestEvent(items) < |items|
    ensures |DropOldestEvent(items)| == |items| - 1
    ensures Requests(DropOldestEvent(items)) == Requests(items)
    ensures Events(items) == [items[OldestEvent(items)]] + Events(DropOldestEvent(items))
  {
    if items[0].Request? {
      DropKeepsOrder(items[1..]);
      var rest := DropOldestEvent(items);
      assert rest[0] == items[0] && rest[1..] == DropOldestEvent(items[1..]);
      assert Requests(rest) == [items[0]] + Requests(rest[1..]);
      assert Events(rest) == Events(rest[1..]);
      assert Events(items) == Events(items[1..]);
    }
  }

  lemma {:induction false} DropKeepsItems(items: seq<Envelope>)
    requires OldestEvent(items) < |items|
    ensures multiset(items) == multiset(DropOldestEvent(items)) + multiset{items[OldestEvent(items)]}
  {
    assert items == [items[0]] + items[1..];
    if items[0].Request? {
      DropKeepsItems(items[1..]);
    }
  }

  /** On requests a push is a plain FIFO append unless refused, and then nothing
      moves; what a seated push drops is the oldest event, so events keep their
      order; the queue never outgrows its capacity. */
  lemma {:induction false} PushIsFifo(items: seq<Envelope>, cap: nat, env: Envelope)
    requires |items| <= cap
    ensures var (next, dropped) := Pushed(items, cap, env);
            && |next| <= cap
            && (Refuses(items, cap) ==> next == items && dropped == Some(env))
            && (!Refuses(items, cap) ==>
                  && Requests(next) == Requests(items) + Requests([env])
                  && (if dropped.Some? then [dropped.value] else []) + Events(next) == Events(items) + Events([env])
                  && (dropped.Some? ==> dropped.value.Event?))
  {
    var i := OldestEvent(items);
    RequestsConcat(items, [env]);
    EventsConcat(items, [env]);
    if |items| == cap && i < |items| {
      assert items[i] in items;
      DropKeepsOrder(items);
      RequestsConcat(DropOldestEvent(items), [env]);
      EventsConcat(DropOldestEvent(items), [env]);
    }
  }

  /** Nothing but the dropped item disappears. */
  lemma {:induction false} PushConserves(items: seq<Envelope>, cap: nat, env: Envelope)
    requires |items| <= cap
    ensures var (next, dropped) := Pushed(items, cap, env);
            multiset(next) + (if dropped.Some? then multiset{dropped.value} else multiset{})
            == multiset(items) + multiset{env}
  {
    if OldestEvent(items) < |items| {
      DropKeepsItems(items);
    }
  }

  // ------------------------------------------------------------------- runs

  /** `a` is `b` with some items left out. */
  ghost predicate Subsequence(a: seq<Envelope>, b: seq<Envelope>)
    decreases |b|
  {
    a == [] ||
    (b != [] &&
     ((a[|a| - 1] == b[|b| - 1] && Subsequence(a[..|a| - 1], b[..|b| - 1])) || Subsequence(a, b[..|b| - 1])))
  }

  lemma {:induction false} LeaveOut(a: seq<Envelope>, x: Envelope, c: seq<Envelope>, b: seq<Envelope>)
    requires Subsequence(a + [x] + c, b)
    ensures Subsequence(a + c, b)
    decreases |b|
  {
    var whole, shorter := a + [x] + c, b[..|b| - 1];
    if Subsequence(whole, shorter) {
      LeaveOut(a, x, c, shorter);
      assert a + c == [] || Subsequence(a + c, shorter);
    } else if c == [] {
      assert whole[..|whole| - 1] == a && a + c == a;
      assert a == [] || Subsequence(a, shorter);
    } else {
      var d := c[..|c| - 1];
      assert whole[..|whole| - 1] == a + [x] + d;
      LeaveOut(a, x, d, shorter);
      assert (a + c)[..|a + c| - 1] == a + d;
    }
  }

  lemma {:induction false} AppendBoth(a: seq<Envelope>, b: seq<Envelope>, tail: seq<Envelope>)
    requires Subsequence(a, b) && |tail| <= 1
    ensures Subsequence(a + tail, b + tail)
  {
    if |tail| == 1 {
      assert (a + tail)[..|a|] == a && (b + tail)[..|b|] == b;
    } else {
      assert a + tail == a && b + tail == b;
    }
  }

  datatype Op = PushOp(env: Envelope) | PopOp

  /** A deque under use: what was offered and not refused, and what came out. */
  datatype Use = Use(items: seq<Envelope>, accepted: seq<Envelope>, popped: seq<Envelope>)

  function Apply(u: Use, op: Op, cap: nat): Use {
    match op
    case PushOp(env) =>
      if Refuses(u.items, cap) then u else u.(items := Pushed(u.items, cap, env).0, accepted := u.accepted + [env])
    case PopOp =>
      if u.items == [] then u else u.(items := u.items[1..], popped := u.popped + [u.items[0]])
  }

  ghost predicate UseInv(u: Use, cap: nat) {
    && |u.items| <= cap
    && Requests(u.accepted) == Requests(u.popped) + Requests(u.items)
    && Subsequence(Events(u.popped) + Events(u.items), Events(u.accepted))
  }

  lemma {:induction false} EvictKeepsOrder(out: seq<Envelope>, had: seq<Envelope>, tail: seq<Envelope>,
                        drop: seq<Envelope>, next: seq<Envelope>, accepted: seq<Envelope>)
    requires Subsequence(out + had, accepted) && |tail| <= 1 && |drop| <= 1 && drop + next == had + tail
    ensures Subsequence(out + next, accepted + tail)
  {
    AppendBoth(out + had, accepted, tail);
    Associates(out, had, tail);
    Associates(out, drop, next);
    if |drop| == 1 {
      assert drop == [drop[0]];
      LeaveOut(out, drop[0], next, accepted + tail);
    } else {
      assert out + drop == out;
    }
  }

  lemma {:induction false} PushKeepsUse(u: Use, env: Envelope, cap: nat)
    requires UseInv(u, cap) && !Refuses(u.items, cap)
    ensures UseInv(Apply(u, PushOp(env), cap), cap)
  {
    var (next, dropped) := Pushed(u.items, cap, env);
    PushIsFifo(u.items, cap, env);
    RequestsConcat(u.accepted, [env]);
    EventsConcat(u.accepted, [env]);
    Associates(Requests(u.popped), Requests(u.items), Requests([env]));
    EvictKeepsOrder(Events(u.popped), Events(u.items), Events([env]),
                    if dropped.Some? then [dropped.value] else [], Events(next), Events(u.accepted));
  }

  lemma {:induction false} PopKeepsUse(u: Use, cap: nat)
    requires UseInv(u, cap) && u.items != []
    ensures UseInv(Apply(u, PopOp, cap), cap)
  {
    var front := u.items[0];
    RequestsConcat(u.popped, [front]);
    EventsConcat(u.popped, [front]);
    assert [front][1..] == [];
    assert Requests([front]) + Requests(u.items[1..]) == Requests(u.items);
    assert Events([front]) + Events(u.items[1..]) == Events(u.items);
    Associates(Requests(u.popped), Requests([front]), Requests(u.items[1..]));
    Associates(Events(u.popped), Events([front]), Events(u.items[1..]));
  }

  function Uses(u: Use, ops: seq<Op>, cap: nat): Use
    decreases |ops|
  {
    if ops == [] then u else Uses(Apply(u, ops[0], cap), ops[1..], cap)
  }

  /** Over any run of pushes and pops: the requests that came out and those still
      queued are exactly the accepted ones in order; events come out in the order
      they were accepted; the queue never outgrows its capacity. */
  lemma {:induction false} DequeRefinesFifo(u: Use, ops: seq<Op>, cap: nat)
    requires UseInv(u, cap)
    ensures UseInv(Uses(u, ops, cap), cap)
    decreases |ops|
  {
    if ops != [] {
      match ops[0] {
        case PushOp(env) => if !Refuses(u.items, cap) { PushKeepsUse(u, env, cap); }
        case PopOp => if u.items != [] { PopKeepsUse(u, cap); }
      }
      DequeRefinesFifo(Apply(u, ops[0], cap), ops[1..], cap);
    }
  }

  /** The deque object. */
  class Deque {
    var items: seq<Envelope>
    const cap: nat
    var signalled: bool

    ghost predicate Valid()
      reads this
    {
      0 < cap && |items| <= cap
    }

    constructor (capacity: nat)
      requires 0 < capacity
      ensures Valid() && items == [] && cap == capacity && !signalled
    {
      items, cap, signalled := [], capacity, false;
    }

    /** Wakes are coalesced: one pending signal covers any number of pushes. */
    method Push(env: Envelope) returns (dropped: Option<Envelope>)
      requires Valid()
      modifies this
      ensures Valid() && (items, dropped) == Pushed(old(items), cap, env)
      ensures signalled == (old(signalled) || !Refuses(old(items), cap))
    {
      if |items| < cap {
        items := items + [env];
        signalled := true;
        return None;
      }
      for i := 0 to |items|
        invariant items == old(items) && signalled == old(signalled)
        invariant forall j :: 0 <= j < i ==> items[j].Request?
      {
        if !items[i].Request? {
          assert items[i] in items && OldestEvent(items) == i;
          DropSplit(items[..i], items[i..]);
          assert items == items[..i] + items[i..] && items[i..][1..] == items[i + 1..];
          dropped := Some(items[i]);
          items := items[..i] + items[i + 1..];
          items := items + [env];
          signalled := true;
          return;
        }
      }
      assert OldestEvent(items) == |items|;
      dropped := Some(env);
    }

    method Pop() returns (front: Option<Envelope>)
      requires Valid()
      modifies this`items
      ensures Valid()
      ensures if old(items) == [] then front == None && items == [] else front == Some(old(items)[0]) && items == old(items)[1..]
    {
      if |items| == 0 {
        return None;
      }
      front := Some(items[0]);
      items := items[1..];
    }
  }
}
