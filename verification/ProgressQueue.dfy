/** A call's progress: pushed under a lock, announced by a coalesced signal, and drained in
    order by one goroutine that parks when it finds nothing. */
module ProgressQueue {
  type Row = nat

  /** Where the drainer is: about to look, handing a row over, parked on the signal, or
      returned with its channel closed. */
  datatype Drainer = Looking | Sending(row: Row) | Parked | Returned

  /** `waking` are pushes and closes whose signal is still to be posted; `accepted` the
      rows ever queued, `delivered` those handed over. */
  datatype Queue = Queue(
    rows: seq<Row>, closed: bool, notify: bool, waking: nat, drainer: Drainer, accepted: seq<Row>, delivered: seq<Row>)

  const Start := Queue([], false, false, 0, Looking, [], [])

  datatype Step =
    | Push(row: Row)
    | Close
    | Signal
    | Look
    | HandOver
    | Wake

  predicate Enabled(q: Queue, s: Step) {
    match s
    case Signal => 0 < q.waking
    case Look => q.drainer.Looking?
    case HandOver => q.drainer.Sending?
    case Wake => q.drainer.Parked? && q.notify
    case _ => true
  }

  /** The drainer's lock-held look: a row to send, the end, or nothing to do yet. */
  function Looked(rows: seq<Row>, closed: bool): Drainer {
    if rows != [] then Sending(rows[0]) else if closed then Returned else Parked
  }

  function Next(q: Queue, s: Step): Queue
    requires Enabled(q, s)
  {
    match s
    case Push(row) =>
      if q.closed then q.(waking := q.waking + 1)
      else q.(rows := q.rows + [row], accepted := q.accepted + [row], waking := q.waking + 1)
    case Close => q.(closed := true, waking := q.waking + 1)
    case Signal => q.(notify := true, waking := q.waking - 1)
    case Look => q.(drainer := Looked(q.rows, q.closed), rows := if q.rows == [] then [] else q.rows[1..])
    case HandOver => q.(delivered := q.delivered + [q.drainer.row], drainer := Looking)
    case Wake => q.(notify := false, drainer := Looking)
  }

  class Rows {
    var rows: seq<Row>
    var closed: bool

    constructor ()
      ensures rows == [] && !closed
    {
      rows, closed := [], false;
    }

    method Append(row: Row)
      modifies this
      ensures rows == (if old(closed) then old(rows) else old(rows) + [row]) && closed == old(closed)
    {
      if !closed {
        rows := rows + [row];
      }
    }

    method Take() returns (next: Drainer)
      modifies this`rows
      ensures next == Looked(old(rows), closed)
      ensures next.Sending? ==> [next.row] + rows == old(rows)
      ensures !next.Sending? ==> rows == old(rows) == []
    {
      if |rows| > 0 {
        next := Sending(rows[0]);
        rows := rows[1..];
      } else {
        next := if closed then Returned else Parked;
      }
    }
  }

  function InHand(d: Drainer): seq<Row> { if d.Sending? then [d.row] else [] }

  ghost predicate Inv(q: Queue) {
    && q.accepted == q.delivered + InHand(q.drainer) + q.rows
    && (q.drainer.Parked? && (q.rows != [] || q.closed) ==> q.notify || 0 < q.waking)
    && (q.drainer.Returned? ==> q.closed && q.rows == [])
  }

  lemma LookKeepsOrder(delivered: seq<Row>, rows: seq<Row>)
    requires rows != []
    ensures delivered + [] + rows == delivered + [rows[0]] + rows[1..]
  {
    assert rows == [rows[0]] + rows[1..];
  }

  lemma StepKeepsInv(q: Queue, s: Step)
    requires Inv(q) && Enabled(q, s)
    ensures Inv(Next(q, s))
  {
    match s
    case Push(row) =>
      assert q.delivered + InHand(q.drainer) + q.rows + [row] == q.delivered + InHand(q.drainer) + (q.rows + [row]);
    case Look => if q.rows != [] { LookKeepsOrder(q.delivered, q.rows); }
    case HandOver => assert q.delivered + [q.drainer.row] + [] == q.delivered + [q.drainer.row];
    case _ =>
  }

  ghost predicate Runnable(q: Queue, steps: seq<Step>)
    decreases |steps|
  {
    steps == [] || (Enabled(q, steps[0]) && Runnable(Next(q, steps[0]), steps[1..]))
  }

  ghost function Run(q: Queue, steps: seq<Step>): Queue
    requires Runnable(q, steps)
    decreases |steps|
  {
    if steps == [] then q else Run(Next(q, steps[0]), steps[1..])
  }

  lemma {:induction false} RunKeepsInv(q: Queue, steps: seq<Step>)
    requires Inv(q) && Runnable(q, steps)
    ensures Inv(Run(q, steps))
    decreases |steps|
  {
    if steps != [] {
      StepKeepsInv(q, steps[0]);
      RunKeepsInv(Next(q, steps[0]), steps[1..]);
    }
  }

  /** The rows pushed before the close, read off the steps alone. */
  ghost function Pushes(steps: seq<Step>, closed: bool): seq<Row> {
    if steps == [] then []
    else
      (if steps[0].Push? && !closed then [steps[0].row] else []) + Pushes(steps[1..], closed || steps[0].Close?)
  }

  lemma {:induction false} RunAccepts(q: Queue, steps: seq<Step>)
    requires Runnable(q, steps)
    ensures Run(q, steps).accepted == q.accepted + Pushes(steps, q.closed)
    decreases |steps|
  {
    if steps != [] {
      RunAccepts(Next(q, steps[0]), steps[1..]);
    }
  }

  /** Over every interleaving: rows come out once, in the order they were pushed before the close; the
      drainer never sleeps on work, for when it is parked with no signal posted or coming
      there is nothing queued and the queue is open; and it returns only after the close,
      having handed over everything. */
  lemma DrainedInOrder(steps: seq<Step>)
    requires Runnable(Start, steps)
    ensures var q := Run(Start, steps);
            && q.accepted == Pushes(steps, false) == q.delivered + InHand(q.drainer) + q.rows
            && (q.drainer.Parked? && !q.notify && q.waking == 0 ==> !q.closed && q.delivered == q.accepted)
            && (q.drainer.Returned? ==> q.closed && q.delivered == q.accepted)
  {
    RunKeepsInv(Start, steps);
    RunAccepts(Start, steps);
  }
}
