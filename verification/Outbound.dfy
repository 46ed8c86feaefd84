/** The device's outbound arms: body slots converging onto the current lane
    session, each through one stream at a time. */
module Outbound {
  import opened Options

  type Slot = nat
  type Session = nat
  type Stream = nat

  datatype Bundle = Bundle(session: Session, stream: Stream)

  /** The owner's table: its sealed flag and session, the registered slots, each
      slot's closed flag, arms and opening mark. */
  datatype Table = Table(
    sealed: bool, session: Option<Session>, slots: set<Slot>,
    closed: set<Slot>, arms: map<Slot, Option<Bundle>>, opening: set<Slot>)

  function ArmsOf(t: Table, slot: Slot): Option<Bundle> {
    if slot in t.arms then t.arms[slot] else None
  }

  // ------------------------------------------------------- lock-held sections
  // Each returns the new table and the streams it took out, which its caller
  // closes after releasing the lock.

  function StreamOf(b: Option<Bundle>): set<Stream> {
    if b.Some? then {b.value.stream} else {}
  }

  function Prepared(t: Table, slot: Slot): Table {
    if t.sealed then t else t.(slots := t.slots + {slot}, arms := t.arms[slot := None])
  }

  function AllDisconnected(arms: map<Slot, Option<Bundle>>, slots: set<Slot>): map<Slot, Option<Bundle>> {
    map s | s in arms :: if s in slots then None else arms[s]
  }

  function StreamsOf(arms: map<Slot, Option<Bundle>>, slots: set<Slot>): set<Stream> {
    set s | s in slots && s in arms && arms[s].Some? :: arms[s].value.stream
  }

  function LaneSet(t: Table, session: Session): (Table, set<Stream>) {
    if t.sealed || t.session == Some(session) then (t, {})
    else (t.(session := Some(session), arms := AllDisconnected(t.arms, t.slots)), StreamsOf(t.arms, t.slots))
  }

  function LaneDowned(t: Table, session: Session): (Table, set<Stream>) {
    if t.session != Some(session) then (t, {})
    else (t.(session := None, arms := AllDisconnected(t.arms, t.slots)), StreamsOf(t.arms, t.slots))
  }

  /** What the world says while a slot converges: whether its body and the session
      are current, whether its installed stream ended, whether a retry is pending. */
  datatype Facts = Facts(bodyCurrent: bool, sessionCurrent: bool, streamEnded: bool, retryPending: bool)

  /** The session to open on, if this pass starts an open. */
  function Converged(t: Table, slot: Slot, f: Facts): (Table, set<Stream>, Option<Session>) {
    var bundle := ArmsOf(t, slot);
    if t.sealed || slot in t.closed || slot !in t.slots then (t, {}, None)
    else if !f.bodyCurrent || t.session.None? || !f.sessionCurrent then
      (t.(arms := t.arms[slot := None]), StreamOf(bundle), None)
    else if f.retryPending then (t, {}, None)
    else if bundle.Some? && Some(bundle.value.session) == t.session && !f.streamEnded then (t, {}, None)
    else
      var cut := t.(arms := t.arms[slot := None]);
      if slot in t.opening then (cut, StreamOf(bundle), None)
      else (cut.(opening := t.opening + {slot}), StreamOf(bundle), t.session)
  }

  /** An open that ended without a stream to publish. */
  function OpenFailed(t: Table, slot: Slot): Table {
    t.(opening := t.opening - {slot})
  }

  /** Publish a dialled stream, or lose it.  The second result is the displaced or
      losing stream. */
  function Published(t: Table, slot: Slot, b: Bundle, bodyCurrent: bool, sessionCurrent: bool): (Table, set<Stream>, bool) {
    var open := t.(opening := t.opening - {slot});
    if !t.sealed && slot in t.slots && slot !in t.closed && t.session == Some(b.session) && bodyCurrent && sessionCurrent
    then (open.(arms := t.arms[slot := Some(b)]), StreamOf(ArmsOf(t, slot)) - {b.stream}, true)
    else (open, {b.stream}, false)
  }

  /** The lock-free withdrawal of exactly the bundle just installed. */
  function Withdrawn(t: Table, slot: Slot, b: Bundle): (Table, set<Stream>) {
    if ArmsOf(t, slot) == Some(b) then (t.(arms := t.arms[slot := None]), {b.stream}) else (t, {})
  }

  function SlotClosed(t: Table, slot: Slot): (Table, set<Stream>) {
    (t.(slots := t.slots - {slot}, arms := t.arms[slot := None]), StreamOf(ArmsOf(t, slot)))
  }

  // -------------------------------------------------------------- the object

  class DaemonOutbound {
    var sealed: bool
    var session: Option<Session>
    var slots: set<Slot>
    var closed: set<Slot>
    var arms: map<Slot, Option<Bundle>>
    var opening: set<Slot>

    ghost function View(): Table
      reads this
    {
      Table(sealed, session, slots, closed, arms, opening)
    }

    constructor ()
      ensures View() == Table(false, None, {}, {}, map[], {})
    {
      sealed, session, slots, closed, arms, opening := false, None, {}, {}, map[], {};
    }

    method Prepare(slot: Slot) returns (ok: bool)
      modifies this
      ensures View() == Prepared(old(View()), slot) && ok == !old(sealed)
    {
      if sealed {
        return false;
      }
      slots := slots + {slot};
      arms := arms[slot := None];
      ok := true;
    }

    /** Swap every registered slot to disconnected, collecting what was there. */
    method DisconnectAll() returns (streams: set<Stream>)
      modifies this`arms
      ensures arms == AllDisconnected(old(arms), slots)
      ensures streams == StreamsOf(old(arms), slots)
    {
      streams := {};
      var rest := slots;
      while rest != {}
        invariant rest <= slots
        invariant arms == AllDisconnected(old(arms), slots - rest)
        invariant streams == StreamsOf(old(arms), slots - rest)
        decreases rest
      {
        var slot :| slot in rest;
        assert slots - (rest - {slot}) == slots - rest + {slot};
        rest := rest - {slot};
        if slot in arms {
          streams := streams + StreamOf(arms[slot]);
          arms := arms[slot := None];
        }
      }
      assert slots - {} == slots;
    }

    method SetLane(next: Session) returns (streams: set<Stream>)
      modifies this
      ensures (View(), streams) == LaneSet(old(View()), next)
    {
      if sealed || session == Some(next) {
        return {};
      }
      session := Some(next);
      streams := DisconnectAll();
    }

    method LaneDown(down: Session) returns (streams: set<Stream>)
      modifies this
      ensures (View(), streams) == LaneDowned(old(View()), down)
    {
      if session != Some(down) {
        return {};
      }
      session := None;
      streams := DisconnectAll();
    }

    method ConvergeSlot(slot: Slot, f: Facts) returns (predecessor: set<Stream>, dial: Option<Session>)
      modifies this
      ensures (View(), predecessor, dial) == Converged(old(View()), slot, f)
    {
      if sealed || slot in closed || slot !in slots {
        return {}, None;
      }
      var bundle := if slot in arms then arms[slot] else None;
      if !f.bodyCurrent || session.None? || !f.sessionCurrent {
        arms := arms[slot := None];
        return StreamOf(bundle), None;
      }
      if f.retryPending {
        return {}, None;
      }
      if bundle.Some? && Some(bundle.value.session) == session && !f.streamEnded {
        return {}, None;
      }
      predecessor := StreamOf(bundle);
      arms := arms[slot := None];
      if slot in opening {
        return predecessor, None;
      }
      opening := opening + {slot};
      dial := session;
    }

    method Publish(slot: Slot, b: Bundle, bodyCurrent: bool, sessionCurrent: bool)
      returns (lost: set<Stream>, published: bool)
      modifies this
      ensures (View(), lost, published) == Published(old(View()), slot, b, bodyCurrent, sessionCurrent)
    {
      opening := opening - {slot};
      if !sealed && slot in slots && slot !in closed && session == Some(b.session) && bodyCurrent && sessionCurrent {
        lost := StreamOf(if slot in arms then arms[slot] else None) - {b.stream};
        arms := arms[slot := Some(b)];
        published := true;
      } else {
        lost, published := {b.stream}, false;
      }
    }

    method CloseSlot(slot: Slot) returns (streams: set<Stream>)
      modifies this
      ensures (View(), streams) == SlotClosed(old(View()), slot)
    {
      slots := slots - {slot};
      streams := StreamOf(if slot in arms then arms[slot] else None);
      arms := arms[slot := None];
    }
  }
}
