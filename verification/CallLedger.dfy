/** The out-station call ledger: requests this actor is owed a terminal for.  Every
    lock-held section is one atomic step; waiters hold an entry's channel across
    steps.  Request ids and response tags are never reused. */
module CallLedger {
  import opened Options

  type Id = string
  type Tag = nat

  /** A response envelope: the request it answers, and whether it is a FINAL. */
  datatype Response = Response(tag: Tag, parent: Id, isFinal: bool)

  /** One account row.  It outlives its place in the table: a parked waiter still
      reads its one-slot channel after the entry is gone. */
  datatype Entry = Entry(buffer: Option<Tag>, closed: bool, final: bool, progress: seq<Tag>, progressClosed: bool)

  /** `entries` holds every row ever registered, `live` the ids still in the table. */
  datatype Ledger = Ledger(entries: map<Id, Entry>, live: set<Id>)

  datatype Verdict = Unmatched | Progressed | Buffered | Overflowed | SentOnClosed

  // ------------------------------------------------------- lock-held sections

  const Fresh := Entry(None, false, false, [], false)

  function Registered(l: Ledger, id: Id): Ledger {
    Ledger(l.entries[id := Fresh], l.live + {id})
  }

  function Forgotten(l: Ledger, id: Id): Ledger {
    if id in l.live && id in l.entries
    then Ledger(l.entries[id := l.entries[id].(progressClosed := true)], l.live - {id})
    else l.(live := l.live - {id})
  }

  /** A provisional joins the progress queue; a final is marked and handed to the
      channel in the same section. */
  function Matched(l: Ledger, r: Response): (Ledger, Verdict) {
    if r.parent !in l.live || r.parent !in l.entries then (l, Unmatched)
    else
      var e := l.entries[r.parent];
      if !r.isFinal then
        (l.(entries := l.entries[r.parent := e.(progress := if e.progressClosed then e.progress else e.progress + [r.tag])]),
         Progressed)
      else
        var marked := e.(final := true, progressClosed := true);
        if e.closed then (l.(entries := l.entries[r.parent := marked]), SentOnClosed)
        else if e.buffer.Some? then (l.(entries := l.entries[r.parent := marked]), Overflowed)
        else (l.(entries := l.entries[r.parent := marked.(buffer := Some(r.tag))]), Buffered)
  }

  function ClaimedBuffered(l: Ledger, id: Id): (Ledger, Option<Tag>) {
    if id !in l.live || id !in l.entries || !l.entries[id].final || l.entries[id].buffer.None? then (l, None)
    else (Ledger(l.entries[id := l.entries[id].(buffer := None)], l.live - {id}), l.entries[id].buffer)
  }

  /** Timeout and cancel share this section; it reports whether a self-close is owed. */
  function SelfClosed(l: Ledger, id: Id): (Ledger, bool) {
    if id !in l.live || id !in l.entries || l.entries[id].final then (l, false)
    else (Ledger(l.entries[id := l.entries[id].(closed := true, progressClosed := true)], l.live - {id}), true)
  }

  /** A receive on an entry's channel: the buffered final, the close signal, or block. */
  datatype Received = Final(tag: Tag) | CloseSignal | Blocked

  function Receive(l: Ledger, id: Id): (Ledger, Received)
    requires id in l.entries
  {
    var e := l.entries[id];
    if e.buffer.Some? then (l.(entries := l.entries[id := e.(buffer := None)]), Final(e.buffer.value))
    else if e.closed then (l, CloseSignal)
    else (l, Blocked)
  }

  function Consumed(l: Ledger, id: Id): Ledger {
    l.(live := l.live - {id})
  }

  function InFlight(l: Ledger): set<Id> {
    set id | id in l.live && id in l.entries && !l.entries[id].final
  }

  /** The ledger object: its table and rows, changed only in these sections. */
  class Table {
    var entries: map<Id, Entry>
    var live: set<Id>

    ghost function View(): Ledger
      reads this
    {
      Ledger(entries, live)
    }

    constructor ()
      ensures View() == Ledger(map[], {})
    {
      entries, live := map[], {};
    }

    method Register(id: Id)
      modifies this
      ensures View() == Registered(old(View()), id)
    {
      entries := entries[id := Fresh];
      live := live + {id};
    }

    method Forget(id: Id)
      modifies this
      ensures View() == Forgotten(old(View()), id)
    {
      if id in live && id in entries {
        entries := entries[id := entries[id].(progressClosed := true)];
      }
      live := live - {id};
    }

    method Match(r: Response) returns (verdict: Verdict)
      modifies this
      ensures (View(), verdict) == Matched(old(View()), r)
    {
      if r.parent !in live || r.parent !in entries {
        return Unmatched;
      }
      var e := entries[r.parent];
      if !r.isFinal {
        if !e.progressClosed {
          e := e.(progress := e.progress + [r.tag]);
        }
        entries := entries[r.parent := e];
        return Progressed;
      }
      e := e.(progressClosed := true, final := true);
      if e.closed {
        verdict := SentOnClosed;
      } else if e.buffer.None? {
        e := e.(buffer := Some(r.tag));
        verdict := Buffered;
      } else {
        verdict := Overflowed;
      }
      entries := entries[r.parent := e];
    }

    method ClaimBuffered(id: Id) returns (tag: Option<Tag>)
      modifies this
      ensures (View(), tag) == ClaimedBuffered(old(View()), id)
      ensures tag.Some? ==> id in old(entries) && old(entries)[id].buffer == tag && id !in live
      ensures tag.None? ==> View() == old(View())
    {
      if id !in live || id !in entries || !entries[id].final {
        return None;
      }
      tag := entries[id].buffer;
      if tag.Some? {
        entries := entries[id := entries[id].(buffer := None)];
        live := live - {id};
      }
    }

    method FireTimeout(id: Id) returns (selfClose: bool)
      modifies this
      ensures (View(), selfClose) == SelfClosed(old(View()), id)
      ensures selfClose ==> id in old(entries) && !old(entries)[id].final && id !in live && entries[id].closed
      ensures !selfClose ==> View() == old(View())
    {
      if id !in live || id !in entries || entries[id].final {
        return false;
      }
      live := live - {id};
      entries := entries[id := entries[id].(closed := true, progressClosed := true)];
      selfClose := true;
    }

    /** What one select on the entry's channel yields. */
    method ReceiveFrom(id: Id) returns (got: Received)
      requires id in entries
      modifies this
      ensures (View(), got) == Receive(old(View()), id)
    {
      var e := entries[id];
      if e.buffer.Some? {
        entries := entries[id := e.(buffer := None)];
        return Final(e.buffer.value);
      }
      return if e.closed then CloseSignal else Blocked;
    }

    method Consume(id: Id)
      modifies this
      ensures View() == Consumed(old(View()), id)
    {
      live := live - {id};
    }

    method List() returns (ids: seq<Id>)
      ensures forall id :: id in ids <==> id in InFlight(View())
      ensures forall i, j :: 0 <= i < j < |ids| ==> ids[i] != ids[j]
    {
      ids := [];
      var rest := live;
      while rest != {}
        invariant rest <= live
        invariant forall id :: id in ids <==> id in InFlight(View()) && id !in rest
        invariant forall i, j :: 0 <= i < j < |ids| ==> ids[i] != ids[j]
        decreases rest
      {
        var id :| id in rest;
        rest := rest - {id};
        if id in entries && !entries[id].final {
          ids := ids + [id];
        }
      }
    }
  }
}
