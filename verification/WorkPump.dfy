/** The pump and the worker around the deque and the in-station (serve) accounts,
    with every lock-held section a step of its own. */
module WorkPump {
  import opened Options
  import opened WorkDeque

  // ---------------------------------------------------------- serve accounts

  datatype Admission = Opened | Existed | Full

  /** Admission is idempotent per id and refuses, without blocking, at capacity. */
  function AdmittedOnce(entries: map<Id, bool>, cap: nat, id: Id, describe: bool): (map<Id, bool>, Admission) {
    if id in entries then (entries, Existed)
    else if cap <= |entries| then (entries, Full)
    else (entries[id := describe], Opened)
  }

  class ServeLedger {
    var entries: map<Id, bool>
    const cap: nat

    ghost predicate Valid()
      reads this
    {
      0 < cap && |entries| <= cap
    }

    constructor (capacity: nat)
      requires 0 < capacity
      ensures Valid() && entries == map[] && cap == capacity
    {
      entries, cap := map[], capacity;
    }

    method AdmitOnce(env: Envelope) returns (admitted: bool, existed: bool)
      requires Valid() && env.Request?
      modifies this
      ensures Valid()
      ensures var (next, verdict) := AdmittedOnce(old(entries), cap, env.id, env.describe);
              entries == next && admitted == !verdict.Full? && existed == verdict.Existed?
    {
      if env.id in entries {
        return true, true;
      }
      if |entries| >= cap {
        return false, false;
      }
      entries := entries[env.id := env.describe];
      return true, false;
    }

    /** The one disposition of every closer; closing a gone id is a no-op. */
    method Close(id: Id)
      requires Valid()
      modifies this
      ensures Valid() && entries == old(entries) - {id}
    {
      FewerKeys(entries, id);
      entries := entries - {id};
    }

    method IsClosed(id: Id) returns (closed: bool)
      ensures closed <==> id !in entries
    {
      closed := id !in entries;
    }
  }

  // -------------------------------------------------------------- the pump

  /** What the pump holds between two of its own sections. */
  datatype Hand =
    | Idle
    | Checked(env: Envelope)    // saw a running occupant, has not admitted yet
    | Admitted(env: Envelope)   // account open, not seated yet
    | Refused(env: Envelope)    // account open, the deque refused the seat
    | Rejecting(env: Envelope)  // owes an overloaded terminal

  /** `serve` are the open accounts (true for introspection requests, answered on
      the pump); `handed` the open accounts already given to the worker; `popped`
      what the worker took and has not resolved; the last three are logs. */
  datatype Pump = Pump(
    running: bool, serve: map<Id, bool>, items: seq<Envelope>, hand: Hand,
    popped: Option<Envelope>, handed: set<Id>, rejects: seq<Envelope>,
    seated: seq<Envelope>, taken: seq<Envelope>)

  const Start := Pump(true, map[], [], Idle, None, {}, [], [], [])

  datatype Step =
    | ReceiveRequest(env: Envelope)
    | ReceiveEvent(env: Envelope)
    | Admit
    | Seat
    | CloseRefused
    | OfferReject
    | Close(id: Id)     // a terminal landed, the deadline fired, or a cancel arrived
    | Pop
    | Resolve           // the worker asks the account for its scope
    | WriteReject
    | Drain             // the occupant leaves Running

  predicate Enabled(p: Pump, s: Step) {
    match s
    case ReceiveRequest(env) => p.hand.Idle? && env.Request?
    case ReceiveEvent(env) => p.hand.Idle? && env.Event?
    case Admit => p.hand.Checked? && p.hand.env.Request?
    case Seat => p.hand.Admitted?
    case CloseRefused => p.hand.Refused?
    case OfferReject => p.hand.Rejecting?
    case Pop => p.popped.None? && p.items != []
    case Resolve => p.popped.Some?
    case WriteReject => p.rejects != []
    case _ => true
  }

  /** Close an account and everything said about it. */
  function Closed(p: Pump, id: Id): Pump {
    p.(serve := p.serve - {id}, handed := p.handed - {id})
  }

  function Next(p: Pump, s: Step, cap: nat): Pump
    requires Enabled(p, s)
  {
    match s
    case ReceiveRequest(env) => p.(hand := if p.running then Checked(env) else Rejecting(env))
    case ReceiveEvent(env) => p.(items := Pushed(p.items, cap, env).0)
    case Admit =>
      var env := p.hand.env;
      var (serve, verdict) := AdmittedOnce(p.serve, cap, env.id, env.describe);
      p.(serve := serve,
         hand := match verdict
                 case Existed => Idle
                 case Full => Rejecting(env)
                 case Opened => if env.describe then Idle else Admitted(env))
    case Seat =>
      var env := p.hand.env;
      if Refuses(p.items, cap) then p.(hand := Refused(env))
      else p.(items := Pushed(p.items, cap, env).0, hand := Idle, seated := p.seated + [env])
    case CloseRefused => Closed(p, p.hand.env.id).(hand := Rejecting(p.hand.env))
    case OfferReject => p.(hand := Idle, rejects := if |p.rejects| < cap then p.rejects + [p.hand.env] else p.rejects)
    case Close(id) => Closed(p, id)
    case Pop =>
      p.(items := p.items[1..], popped := Some(p.items[0]),
         taken := if p.items[0].Request? then p.taken + [p.items[0]] else p.taken)
    case Resolve =>
      var env := p.popped.value;
      p.(popped := None, handed := if env.Request? && env.id in p.serve then p.handed + {env.id} else p.handed)
    case WriteReject => p.(rejects := p.rejects[1..])
    case Drain => p.(running := false)
  }

  predicate HandHolds(h: Hand, id: Id) {
    (h.Admitted? || h.Refused?) && h.env.id == id
  }

  predicate Queued(items: seq<Envelope>, id: Id) {
    exists e :: e in items && e.Request? && e.id == id
  }

  /** An open account somebody will still act on. */
  ghost predicate Accounted(p: Pump, id: Id) {
    || HandHolds(p.hand, id)
    || Queued(p.items, id)
    || (p.popped.Some? && p.popped.value.Request? && p.popped.value.id == id)
    || id in p.handed
  }

  ghost predicate Inv(p: Pump, cap: nat) {
    && (forall id :: id in p.serve && !p.serve[id] ==> Accounted(p, id))
    && p.handed <= p.serve.Keys
    && |p.serve| <= cap && |p.items| <= cap && |p.rejects| <= cap
    && (p.hand != Idle ==> p.hand.env.Request?)
    && p.seated == p.taken + Requests(p.items)
  }

  lemma {:induction false} QueuedRequests(items: seq<Envelope>, id: Id)
    ensures Queued(items, id) <==> exists e :: e in Requests(items) && e.id == id
  {
    if items != [] {
      QueuedRequests(items[1..], id);
      assert forall e :: e in items <==> e == items[0] || e in items[1..];
      assert forall e :: e in Requests(items) <==> (items[0].Request? && e == items[0]) || e in Requests(items[1..]);
      if Queued(items, id) {
        var e :| e in items && e.Request? && e.id == id;
        if e != items[0] {
          assert Queued(items[1..], id);
        }
      }
    }
  }

  /** A push never loses a queued request. */
  lemma PushKeepsQueued(items: seq<Envelope>, cap: nat, env: Envelope, id: Id)
    requires |items| <= cap
    ensures Queued(items, id) ==> Queued(Pushed(items, cap, env).0, id)
    ensures !Refuses(items, cap) && env.Request? ==> Queued(Pushed(items, cap, env).0, env.id)
  {
    var next := Pushed(items, cap, env).0;
    PushIsFifo(items, cap, env);
    QueuedRequests(items, id);
    QueuedRequests(next, id);
    QueuedRequests(next, env.id);
    if env.Request? {
      assert Requests([env]) == [env];
    }
  }

  lemma StepKeepsAccounted(p: Pump, s: Step, cap: nat, id: Id)
    requires Inv(p, cap) && Enabled(p, s)
    requires var q := Next(p, s, cap); id in q.serve && !q.serve[id]
    ensures Accounted(Next(p, s, cap), id)
  {
    if id in p.serve && !p.serve[id] {
      assert Accounted(p, id);
    }
    match s
    case ReceiveEvent(env) => PushKeepsQueued(p.items, cap, env, id);
    case Seat => PushKeepsQueued(p.items, cap, p.hand.env, id);
    case Pop => assert p.items == [p.items[0]] + p.items[1..];
    case _ =>
  }

  lemma StepKeepsFifo(p: Pump, s: Step, cap: nat)
    requires Inv(p, cap) && Enabled(p, s)
    ensures var q := Next(p, s, cap); q.seated == q.taken + Requests(q.items) && |q.items| <= cap
  {
    match s
    case ReceiveEvent(env) => PushIsFifo(p.items, cap, env);
    case Seat =>
      PushIsFifo(p.items, cap, p.hand.env);
      assert Requests([p.hand.env]) == [p.hand.env];
    case _ =>
  }

  lemma StepKeepsBounds(p: Pump, s: Step, cap: nat)
    requires Inv(p, cap) && Enabled(p, s)
    ensures var q := Next(p, s, cap);
            q.handed <= q.serve.Keys && |q.rejects| <= cap && (q.hand != Idle ==> q.hand.env.Request?)
  {
  }

  lemma StepKeepsInv(p: Pump, s: Step, cap: nat)
    requires Inv(p, cap) && Enabled(p, s)
    ensures Inv(Next(p, s, cap), cap)
  {
    var q := Next(p, s, cap);
    StepKeepsBounds(p, s, cap);
    forall id | id in q.serve && !q.serve[id]
      ensures Accounted(q, id)
    {
      StepKeepsAccounted(p, s, cap, id);
    }
    StepKeepsFifo(p, s, cap);
    ServeStaysBounded(p, s, cap);
  }

  lemma ServeStaysBounded(p: Pump, s: Step, cap: nat)
    requires Inv(p, cap) && Enabled(p, s)
    ensures |Next(p, s, cap).serve| <= cap
  {
    match s
    case Close(id) => FewerKeys(p.serve, id);
    case CloseRefused => FewerKeys(p.serve, p.hand.env.id);
    case _ =>
  }

  lemma FewerKeys(m: map<Id, bool>, id: Id)
    ensures |m - {id}| <= |m|
  {
    assert (m - {id}).Keys == m.Keys - {id};
    assert |m.Keys - {id}| <= |m.Keys|;
  }

  // ------------------------------------------------------------------- runs

  ghost predicate Runnable(p: Pump, steps: seq<Step>, cap: nat)
    decreases |steps|
  {
    steps == [] || (Enabled(p, steps[0]) && Runnable(Next(p, steps[0], cap), steps[1..], cap))
  }

  ghost function Run(p: Pump, steps: seq<Step>, cap: nat): Pump
    requires Runnable(p, steps, cap)
    decreases |steps|
  {
    if steps == [] then p else Run(Next(p, steps[0], cap), steps[1..], cap)
  }

  lemma {:induction false} RunKeepsInv(p: Pump, steps: seq<Step>, cap: nat)
    requires Inv(p, cap) && Runnable(p, steps, cap)
    ensures Inv(Run(p, steps, cap), cap)
    decreases |steps|
  {
    if steps != [] {
      StepKeepsInv(p, steps[0], cap);
      RunKeepsInv(Next(p, steps[0], cap), steps[1..], cap);
    }
  }

  /** Over every run: no open account is orphaned; the requests taken by the worker
      are exactly those seated, in order, up to what is still queued; and no queue
      or account table outgrows its bound. */
  lemma NoAccountIsOrphaned(steps: seq<Step>, cap: nat)
    requires 0 < cap && Runnable(Start, steps, cap)
    ensures var p := Run(Start, steps, cap);
            && (forall id :: id in p.serve && !p.serve[id] ==> Accounted(p, id))
            && p.seated == p.taken + Requests(p.items)
            && |p.serve| <= cap && |p.items| <= cap && |p.rejects| <= cap
  {
    RunKeepsInv(Start, steps, cap);
  }

  /** Once the occupant drains and the pump's hand is empty, no account ever opens. */
  lemma {:induction false} DrainingOpensNothing(p: Pump, steps: seq<Step>, cap: nat)
    requires !p.running && !p.hand.Checked? && Runnable(p, steps, cap)
    ensures Run(p, steps, cap).serve.Keys <= p.serve.Keys && !Run(p, steps, cap).running
    decreases |steps|
  {
    if steps != [] {
      DrainingOpensNothing(Next(p, steps[0], cap), steps[1..], cap);
    }
  }

  /** A seat is refused only to a full queue of requests, and then its account is
      closed before the pump takes anything else. */
  lemma RefusalClosesTheAccount(p: Pump, cap: nat)
    requires Inv(p, cap) && p.hand.Admitted? && Next(p, Seat, cap).hand.Refused?
    ensures |p.items| == cap && forall e :: e in p.items ==> e.Request?
    ensures var q := Next(Next(p, Seat, cap), CloseRefused, cap);
            p.hand.env.id !in q.serve && q.hand == Rejecting(p.hand.env) && q.items == p.items
  {
  }

  /** In every run no request is swallowed: one that leaves the pump's hand has its account
      open, is queued, or owes a terminal on the reject lane, unless that lane is full.  And
      none is turned away without cause: the occupant left, the accounts are full, or the
      queue is full of requests, which alone keeps an event out too. */
  lemma NoRequestIsSwallowed(steps: seq<Step>, s: Step, cap: nat)
    requires 0 < cap && Runnable(Start, steps, cap) && Enabled(Run(Start, steps, cap), s)
    ensures var p := Run(Start, steps, cap);
            var n := Next(p, s, cap);
            && (!p.hand.Idle? && n.hand.Idle? ==>
                  || p.hand.env.id in n.serve || Queued(n.items, p.hand.env.id)
                  || n.rejects == p.rejects + [p.hand.env] || |p.rejects| == cap)
            && (n.hand.Rejecting? && !p.hand.Rejecting? ==> !p.running || |p.serve| == cap || p.hand.Refused?)
            && (n.hand.Refused? && !p.hand.Refused? ==> |p.items| == cap && forall e :: e in p.items ==> e.Request?)
            && (s.ReceiveEvent? && s.env !in n.items ==> |p.items| == cap && forall e :: e in p.items ==> e.Request?)
  {
    RunKeepsInv(Start, steps, cap);
    var p := Run(Start, steps, cap);
    if s.Seat? && !Refuses(p.items, cap) {
      PushKeepsQueued(p.items, cap, p.hand.env, p.hand.env.id);
    }
  }

  /** What one step puts on the reject lane, and what it writes from it. */
  ghost function Offers(p: Pump, s: Step, cap: nat): seq<Envelope>
    requires Enabled(p, s)
  {
    if s.OfferReject? && |p.rejects| < cap then [p.hand.env] else []
  }

  ghost function Writes(p: Pump, s: Step): seq<Envelope>
    requires Enabled(p, s)
  {
    if s.WriteReject? then [p.rejects[0]] else []
  }

  ghost function Offered(p: Pump, steps: seq<Step>, cap: nat): seq<Envelope>
    requires Runnable(p, steps, cap)
    decreases |steps|
  {
    if steps == [] then [] else Offers(p, steps[0], cap) + Offered(Next(p, steps[0], cap), steps[1..], cap)
  }

  ghost function Written(p: Pump, steps: seq<Step>, cap: nat): seq<Envelope>
    requires Runnable(p, steps, cap)
    decreases |steps|
  {
    if steps == [] then [] else Writes(p, steps[0]) + Written(Next(p, steps[0], cap), steps[1..], cap)
  }

  lemma StepConservesRejects(p: Pump, s: Step, cap: nat)
    requires Enabled(p, s)
    ensures p.rejects + Offers(p, s, cap) == Writes(p, s) + Next(p, s, cap).rejects
  {
  }

  lemma Chained(a: seq<Envelope>, x: seq<Envelope>, y: seq<Envelope>, b: seq<Envelope>,
                u: seq<Envelope>, v: seq<Envelope>, c: seq<Envelope>)
    requires a + x == y + b && b + u == v + c
    ensures a + (x + u) == (y + v) + c
  {
    calc {
      a + (x + u);
      (a + x) + u;
      y + (b + u);
      (y + v) + c;
    }
  }

  /** Over every run the overloaded terminals are written once each and in the order the
      requests were refused. */
  lemma {:induction false} RejectsInOrder(p: Pump, steps: seq<Step>, cap: nat)
    requires Runnable(p, steps, cap)
    ensures p.rejects + Offered(p, steps, cap) == Written(p, steps, cap) + Run(p, steps, cap).rejects
    decreases |steps|
  {
    if steps != [] {
      var n := Next(p, steps[0], cap);
      StepConservesRejects(p, steps[0], cap);
      RejectsInOrder(n, steps[1..], cap);
      Chained(p.rejects, Offers(p, steps[0], cap), Writes(p, steps[0]), n.rejects,
              Offered(n, steps[1..], cap), Written(n, steps[1..], cap), Run(n, steps[1..], cap).rejects);
    }
  }

  /** An introspection request is answered on the pump: it never waits for the worker. */
  ghost predicate DescribesOnPump(p: Pump) {
    && (forall e :: e in p.items && e.Request? ==> !e.describe)
    && (p.hand.Admitted? || p.hand.Refused? ==> p.hand.env.Request? && !p.hand.env.describe)
    && (p.popped.Some? && p.popped.value.Request? ==> !p.popped.value.describe)
  }

  lemma PushAddsOne(items: seq<Envelope>, cap: nat, env: Envelope)
    requires |items| <= cap
    ensures forall e :: e in Pushed(items, cap, env).0 ==> e in items || e == env
  {
    PushConserves(items, cap, env);
    forall e | e in Pushed(items, cap, env).0
      ensures e in items || e == env
    {
      assert e in multiset(Pushed(items, cap, env).0);
      assert e in multiset(items) + multiset{env};
    }
  }

  lemma {:induction false} DescribeNeverQueues(p: Pump, steps: seq<Step>, cap: nat)
    requires Inv(p, cap) && DescribesOnPump(p) && Runnable(p, steps, cap)
    ensures DescribesOnPump(Run(p, steps, cap))
    decreases |steps|
  {
    if steps != [] {
      StepKeepsInv(p, steps[0], cap);
      if steps[0].Seat? { PushAddsOne(p.items, cap, p.hand.env); }
      if steps[0].ReceiveEvent? { PushAddsOne(p.items, cap, steps[0].env); }
      DescribeNeverQueues(Next(p, steps[0], cap), steps[1..], cap);
    }
  }
}
