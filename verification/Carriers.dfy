/** Daemon carriers on the host: admission, leases renewed by probe replies,
    sealing, revocation and the tickets of lane readers. */
module Carriers {
  import opened Options

  type Daemon = string
  type CarrierId = nat
  type Nonce = nat
  type Millis = int

  const PROBE_INTERVAL := 10000

  /** One carrier.  `sentSince` are the nonces sent since its lease was last renewed;
      `tickets` counts reader tickets issued. */
  datatype Carrier = Carrier(
    daemon: Daemon, sealed: bool, lastSeen: Millis, outstanding: seq<Nonce>, sentSince: set<Nonce>, tickets: nat)

  datatype Row = Row(tombstone: bool, current: Option<CarrierId>, diagnostics: nat)

  /** `admitted` are the carriers that ever became current. */
  datatype Host = Host(
    closed: bool, daemons: map<Daemon, Row>, carriers: map<CarrierId, Carrier>, admitted: set<CarrierId>)

  const Start := Host(false, map[], map[], {})

  function RowOf(h: Host, d: Daemon): Row {
    if d in h.daemons then h.daemons[d] else Row(false, None, 0)
  }

  function ProbeDepth(ttl: nat): (n: nat)
    ensures 1 <= n
  {
    if ttl / PROBE_INTERVAL < 1 then 1 else ttl / PROBE_INTERVAL
  }

  /** Only as many probes as one lease window can hold; the newest always stays. */
  function WithProbe(outstanding: seq<Nonce>, nonce: Nonce, ttl: nat): (out: seq<Nonce>)
    ensures nonce in out && |out| <= |outstanding| + 1
    ensures forall n :: n in out ==> n in outstanding || n == nonce
  {
    var all := outstanding + [nonce];
    var out := if |all| > ProbeDepth(ttl) then all[|all| - ProbeDepth(ttl)..] else all;
    assert out[|out| - 1] == nonce;
    out
  }

  /** Exactly the newest probes are kept: as many as there are, or as fit the TTL at one
      every ten seconds, but never fewer than one. */
  lemma NewestProbesStay(outstanding: seq<Nonce>, nonce: Nonce, ttl: nat)
    ensures var out := WithProbe(outstanding, nonce, ttl);
            && 1 <= |out| <= |outstanding| + 1
            && out == (outstanding + [nonce])[|outstanding| + 1 - |out|..]
            && (|out| == 1 || |out| * 10000 <= ttl)
            && (|out| == |outstanding| + 1 || (|out| + 1) * 10000 > ttl)
  {
    var depth := ProbeDepth(ttl);
    assert ttl < (depth + 1) * 10000 && (depth == 1 || depth * 10000 <= ttl);
    var all := outstanding + [nonce];
    assert all[0..] == all;
  }

  // ------------------------------------------------------- lock-held sections

  datatype Verdict = Admitted | HostClosed | Revoked | DuplicateCurrent

  predicate LiveCurrent(h: Host, row: Row) {
    row.current.Some? && row.current.value in h.carriers && !h.carriers[row.current.value].sealed
  }

  /** Admission of a freshly dialled carrier. */
  function Admit(h: Host, c: CarrierId, d: Daemon, now: Millis): (Host, Verdict) {
    var row := RowOf(h, d);
    var seen := h.(daemons := h.daemons[d := row]);
    if h.closed then (h, HostClosed)
    else if row.tombstone then (seen, Revoked)
    else if LiveCurrent(h, row) then (seen, DuplicateCurrent)
    else
      (Host(h.closed, h.daemons[d := row.(current := Some(c))],
            h.carriers[c := Carrier(d, false, now, [], {}, 0)], h.admitted + {c}), Admitted)
  }

  /** The single sealing decision; a row with nothing left to say goes with it. */
  function Seal(h: Host, c: CarrierId): Host
    requires c in h.carriers
  {
    var carrier := h.carriers[c];
    if carrier.sealed then h
    else
      var marked := h.(carriers := h.carriers[c := carrier.(sealed := true)]);
      if carrier.daemon in h.daemons && h.daemons[carrier.daemon].current == Some(c) then
        var row := h.daemons[carrier.daemon];
        if !row.tombstone && row.diagnostics == 0 then marked.(daemons := h.daemons - {carrier.daemon})
        else marked.(daemons := h.daemons[carrier.daemon := row.(current := None)])
      else marked
  }

  predicate IsCurrent(h: Host, c: CarrierId)
    requires c in h.carriers
  {
    RowOf(h, h.carriers[c].daemon).current == Some(c)
  }

  predicate LeaseOver(carrier: Carrier, now: Millis, ttl: nat) {
    now - carrier.lastSeen > ttl && |carrier.outstanding| > 0
  }

  /** One liveness tick: reap over an unanswered probe, or send the next one. */
  function Probed(h: Host, c: CarrierId, now: Millis, nonce: Nonce, ttl: nat): Host
    requires c in h.carriers
  {
    var carrier := h.carriers[c];
    if carrier.sealed || !IsCurrent(h, c) then h
    else if LeaseOver(carrier, now, ttl) then Seal(h, c)
    else h.(carriers := h.carriers[c := carrier.(outstanding := WithProbe(carrier.outstanding, nonce, ttl),
                                                 sentSince := carrier.sentSince + {nonce})])
  }

  function Renewed(h: Host, c: CarrierId, nonce: Nonce, now: Millis): Host
    requires c in h.carriers
  {
    var carrier := h.carriers[c];
    if !IsCurrent(h, c) || nonce !in carrier.outstanding then h
    else h.(carriers := h.carriers[c := carrier.(outstanding := [], lastSeen := now, sentSince := {})])
  }

  function RevokeDaemon(h: Host, d: Daemon): Host {
    var row := RowOf(h, d).(tombstone := true);
    var marked := h.(daemons := h.daemons[d := row]);
    if row.current.Some? && row.current.value in h.carriers then Seal(marked, row.current.value) else marked
  }

  function TicketTaken(h: Host, c: CarrierId): (Host, bool)
    requires c in h.carriers
  {
    if h.carriers[c].sealed then (h, false)
    else (h.(carriers := h.carriers[c := h.carriers[c].(tickets := h.carriers[c].tickets + 1)]), true)
  }

  /** The host's tables and their lock-held sections. */
  class Registry {
    var closed: bool
    var daemons: map<Daemon, Row>
    var carriers: map<CarrierId, Carrier>
    ghost var admitted: set<CarrierId>

    ghost function View(): Host
      reads this
    {
      Host(closed, daemons, carriers, admitted)
    }

    constructor ()
      ensures View() == Start
    {
      closed, daemons, carriers, admitted := false, map[], map[], {};
    }

    method AdmitCarrier(c: CarrierId, d: Daemon, now: Millis) returns (v: Verdict)
      requires c !in carriers
      modifies this
      ensures (View(), v) == Admit(old(View()), c, d, now)
    {
      if closed {
        return HostClosed;
      }
      if d !in daemons {
        daemons := daemons[d := Row(false, None, 0)];
      }
      var row := daemons[d];
      assert daemons == old(daemons)[d := RowOf(old(View()), d)];
      if row.tombstone {
        return Revoked;
      }
      if row.current.Some? && row.current.value in carriers && !carriers[row.current.value].sealed {
        return DuplicateCurrent;
      }
      daemons := daemons[d := row.(current := Some(c))];
      assert daemons == old(daemons)[d := RowOf(old(View()), d).(current := Some(c))];
      carriers := carriers[c := Carrier(d, false, now, [], {}, 0)];
      admitted := admitted + {c};
      return Admitted;
    }

    method SealCarrier(c: CarrierId) returns (decided: bool)
      requires c in carriers
      modifies this
      ensures View() == Seal(old(View()), c)
      ensures decided == !old(carriers[c].sealed)
    {
      var carrier := carriers[c];
      if carrier.sealed {
        return false;
      }
      carriers := carriers[c := carrier.(sealed := true)];
      if carrier.daemon in daemons && daemons[carrier.daemon].current == Some(c) {
        var row := daemons[carrier.daemon].(current := None);
        if !row.tombstone && row.diagnostics == 0 {
          daemons := daemons - {carrier.daemon};
        } else {
          daemons := daemons[carrier.daemon := row];
        }
      }
      return true;
    }

    /** Returns the nonce to send, if any. */
    method ProbeOnce(c: CarrierId, now: Millis, nonce: Nonce, ttl: nat) returns (probe: Option<Nonce>)
      requires c in carriers
      modifies this
      ensures View() == Probed(old(View()), c, now, nonce, ttl)
      ensures probe.Some? ==> probe.value == nonce && nonce in carriers[c].outstanding
    {
      var carrier := carriers[c];
      if carrier.sealed {
        return None;
      }
      if carrier.daemon !in daemons || daemons[carrier.daemon].current != Some(c) {
        return None;
      }
      if now - carrier.lastSeen > ttl && |carrier.outstanding| > 0 {
        var _ := SealCarrier(c);
        return None;
      }
      carriers := carriers[c := carrier.(outstanding := WithProbe(carrier.outstanding, nonce, ttl),
                                         sentSince := carrier.sentSince + {nonce})];
      return Some(nonce);
    }

    method RenewLease(c: CarrierId, nonce: Nonce, now: Millis)
      requires c in carriers
      modifies this
      ensures View() == Renewed(old(View()), c, nonce, now)
    {
      var carrier := carriers[c];
      if carrier.daemon !in daemons || daemons[carrier.daemon].current != Some(c) {
        return;
      }
      if nonce !in carrier.outstanding {
        return;
      }
      carriers := carriers[c := carrier.(outstanding := [], lastSeen := now, sentSince := {})];
    }

    method Revoke(d: Daemon)
      modifies this
      ensures View() == RevokeDaemon(old(View()), d)
    {
      if d !in daemons {
        daemons := daemons[d := Row(false, None, 0)];
      }
      daemons := daemons[d := daemons[d].(tombstone := true)];
      assert daemons == old(daemons)[d := RowOf(old(View()), d).(tombstone := true)];
      var current := daemons[d].current;
      if current.Some? && current.value in carriers {
        var _ := SealCarrier(current.value);
      }
    }

    /** A reader ticket: refused once the carrier is sealed. */
    method TakeTicket(c: CarrierId) returns (ok: bool)
      requires c in carriers
      modifies this
      ensures (View(), ok) == TicketTaken(old(View()), c)
    {
      if carriers[c].sealed {
        return false;
      }
      carriers := carriers[c := carriers[c].(tickets := carriers[c].tickets + 1)];
      return true;
    }
  }

  // ------------------------------------------------------------------- steps

  datatype Step =
    | Dial(carrier: CarrierId, daemon: Daemon, now: Millis)
    | Tick(carrier: CarrierId, now: Millis, nonce: Nonce)
    | Reply(carrier: CarrierId, nonce: Nonce, now: Millis)
    | Shutdown(carrier: CarrierId)   // disconnect, failed write, or host close
    | Revoke(daemon: Daemon)
    | Ticket(carrier: CarrierId)
    | Diagnose(daemon: Daemon)
    | ExpireDiagnostics(daemon: Daemon)
    | CloseHost

  predicate Enabled(h: Host, s: Step) {
    match s
    case Dial(c, _, _) => c !in h.carriers
    case Tick(c, _, _) => c in h.carriers
    case Reply(c, _, _) => c in h.carriers
    case Shutdown(c) => c in h.carriers
    case Ticket(c) => c in h.carriers
    case _ => true
  }

  function Next(h: Host, s: Step, ttl: nat): Host
    requires Enabled(h, s)
  {
    match s
    case Dial(c, d, now) => Admit(h, c, d, now).0
    case Tick(c, now, nonce) => Probed(h, c, now, nonce, ttl)
    case Reply(c, nonce, now) => Renewed(h, c, nonce, now)
    case Shutdown(c) => Seal(h, c)
    case Revoke(d) => RevokeDaemon(h, d)
    case Ticket(c) => TicketTaken(h, c).0
    case Diagnose(d) => h.(daemons := h.daemons[d := RowOf(h, d).(diagnostics := RowOf(h, d).diagnostics + 1)])
    case ExpireDiagnostics(d) =>
      if d in h.daemons && h.daemons[d].current.None? && !h.daemons[d].tombstone then h.(daemons := h.daemons - {d}) else h
    case CloseHost => h.(closed := true)
  }

  // --------------------------------------------------------------- invariant

  /** A current carrier is known, its daemon's own, and unsealed. */
  ghost predicate CurrentUnsealed(h: Host) {
    forall d :: d in h.daemons && h.daemons[d].current.Some? ==>
      var c := h.daemons[d].current.value;
      c in h.carriers && h.carriers[c].daemon == d && !h.carriers[c].sealed
  }

  /** An unsealed carrier is its daemon's current one, so a daemon has at most one. */
  ghost predicate UnsealedCurrent(h: Host) {
    forall c :: c in h.carriers && !h.carriers[c].sealed ==> IsCurrent(h, c)
  }

  ghost predicate ProbesSent(h: Host) {
    forall c, n :: c in h.carriers && n in h.carriers[c].outstanding ==> n in h.carriers[c].sentSince
  }

  ghost predicate Inv(h: Host) {
    CurrentUnsealed(h) && UnsealedCurrent(h) && ProbesSent(h) && h.admitted == h.carriers.Keys
  }

  lemma SealKeepsInv(h: Host, c: CarrierId)
    requires c in h.carriers && CurrentUnsealed(h) && UnsealedCurrent(h) && ProbesSent(h)
    ensures CurrentUnsealed(Seal(h, c)) && UnsealedCurrent(Seal(h, c)) && ProbesSent(Seal(h, c))
    ensures Seal(h, c).carriers[c].sealed && Seal(h, c).carriers.Keys == h.carriers.Keys
  {
  }

  lemma RevokeKeepsInv(h: Host, d: Daemon)
    requires Inv(h)
    ensures Inv(RevokeDaemon(h, d))
    ensures d in RevokeDaemon(h, d).daemons && RevokeDaemon(h, d).daemons[d].tombstone
    ensures RevokeDaemon(h, d).daemons[d].current.None?
  {
    var row := RowOf(h, d).(tombstone := true);
    var marked := h.(daemons := h.daemons[d := row]);
    assert CurrentUnsealed(marked) && UnsealedCurrent(marked);
    if row.current.Some? {
      SealKeepsInv(marked, row.current.value);
    }
  }

  /** Changing a carrier's lease, probes or tickets touches no admission fact. */
  lemma TouchKeepsInv(h: Host, c: CarrierId, next: Carrier)
    requires Inv(h) && c in h.carriers
    requires next.daemon == h.carriers[c].daemon && next.sealed == h.carriers[c].sealed
    requires forall n :: n in next.outstanding ==> n in next.sentSince
    ensures Inv(h.(carriers := h.carriers[c := next]))
  {
  }

  lemma AdmitKeepsInv(h: Host, c: CarrierId, d: Daemon, now: Millis)
    requires Inv(h) && c !in h.carriers
    ensures Inv(Admit(h, c, d, now).0)
    ensures Admit(h, c, d, now).1.Admitted? ==> !RowOf(h, d).tombstone && RowOf(h, d).current.None?
  {
    var n := Admit(h, c, d, now).0;
    forall k | k in n.carriers && !n.carriers[k].sealed
      ensures IsCurrent(n, k)
    {
      if k in h.carriers {
        assert IsCurrent(h, k);
      }
    }
  }

  lemma TickKeepsInv(h: Host, c: CarrierId, now: Millis, nonce: Nonce, ttl: nat)
    requires Inv(h) && c in h.carriers
    ensures Inv(Probed(h, c, now, nonce, ttl))
  {
    var carrier := h.carriers[c];
    if !carrier.sealed && IsCurrent(h, c) {
      if LeaseOver(carrier, now, ttl) {
        SealKeepsInv(h, c);
      } else {
        var next := carrier.(outstanding := WithProbe(carrier.outstanding, nonce, ttl), sentSince := carrier.sentSince + {nonce});
        TouchKeepsInv(h, c, next);
      }
    }
  }

  lemma ReplyKeepsInv(h: Host, c: CarrierId, nonce: Nonce, now: Millis)
    requires Inv(h) && c in h.carriers
    ensures Inv(Renewed(h, c, nonce, now))
  {
    TouchKeepsInv(h, c, h.carriers[c].(outstanding := [], lastSeen := now, sentSince := {}));
  }

  lemma DiagnosticsKeepInv(h: Host, s: Step, ttl: nat)
    requires Inv(h) && (s.Diagnose? || s.ExpireDiagnostics?)
    ensures Inv(Next(h, s, ttl))
  {
    var n := Next(h, s, ttl);
    forall k | k in n.carriers && !n.carriers[k].sealed
      ensures IsCurrent(n, k)
    {
      assert IsCurrent(h, k);
    }
  }

  lemma StepKeepsInv(h: Host, s: Step, ttl: nat)
    requires Inv(h) && Enabled(h, s)
    ensures Inv(Next(h, s, ttl))
  {
    match s
    case Dial(c, d, now) => AdmitKeepsInv(h, c, d, now);
    case Tick(c, now, nonce) => TickKeepsInv(h, c, now, nonce, ttl);
    case Reply(c, nonce, now) => ReplyKeepsInv(h, c, nonce, now);
    case Shutdown(c) => SealKeepsInv(h, c);
    case Revoke(d) => RevokeKeepsInv(h, d);
    case Ticket(c) => TouchKeepsInv(h, c, h.carriers[c].(tickets := h.carriers[c].tickets + 1));
    case Diagnose(d) => DiagnosticsKeepInv(h, s, ttl);
    case ExpireDiagnostics(d) => DiagnosticsKeepInv(h, s, ttl);
    case CloseHost =>
  }

  // ------------------------------------------------------------------- runs

  ghost predicate Runnable(h: Host, steps: seq<Step>, ttl: nat)
    decreases |steps|
  {
    steps == [] || (Enabled(h, steps[0]) && Runnable(Next(h, steps[0], ttl), steps[1..], ttl))
  }

  ghost function Run(h: Host, steps: seq<Step>, ttl: nat): Host
    requires Runnable(h, steps, ttl)
    decreases |steps|
  {
    if steps == [] then h else Run(Next(h, steps[0], ttl), steps[1..], ttl)
  }

  lemma {:induction false} RunKeepsInv(h: Host, steps: seq<Step>, ttl: nat)
    requires Inv(h) && Runnable(h, steps, ttl)
    ensures Inv(Run(h, steps, ttl))
    decreases |steps|
  {
    if steps != [] {
      StepKeepsInv(h, steps[0], ttl);
      RunKeepsInv(Next(h, steps[0], ttl), steps[1..], ttl);
    }
  }

  /** Over every run a daemon has at most one unsealed carrier, its current one, and
      every probe still answerable was sent since the lease was last renewed. */
  lemma OneCarrierEach(steps: seq<Step>, ttl: nat)
    requires Runnable(Start, steps, ttl)
    ensures var h := Run(Start, steps, ttl);
            && CurrentUnsealed(h) && ProbesSent(h)
            && (forall b, c | b in h.carriers && c in h.carriers && !h.carriers[b].sealed && !h.carriers[c].sealed
                  :: h.carriers[b].daemon == h.carriers[c].daemon ==> b == c)
  {
    RunKeepsInv(Start, steps, ttl);
    var h := Run(Start, steps, ttl);
    assert forall c :: c in h.carriers && !h.carriers[c].sealed ==> IsCurrent(h, c);
  }

  /** Once revoked, a daemon is never admitted again: its tombstone survives every
      step and no carrier of it that is not already known ever appears. */
  lemma {:induction false} RevokedStaysOut(h: Host, steps: seq<Step>, ttl: nat, d: Daemon)
    requires Inv(h) && Runnable(h, steps, ttl)
    requires d in h.daemons && h.daemons[d].tombstone && h.daemons[d].current.None?
    ensures var n := Run(h, steps, ttl);
            && d in n.daemons && n.daemons[d].tombstone && n.daemons[d].current.None?
            && (forall c :: c in n.carriers && n.carriers[c].daemon == d ==>
                  c in h.carriers && h.carriers[c].daemon == d && n.carriers[c].sealed)
    decreases |steps|
  {
    if steps != [] {
      StepKeepsInv(h, steps[0], ttl);
      TombstoneStays(h, steps[0], ttl, d);
      RevokedStaysOut(Next(h, steps[0], ttl), steps[1..], ttl, d);
    } else {
      forall c | c in h.carriers && h.carriers[c].daemon == d
        ensures h.carriers[c].sealed
      {
        assert !h.carriers[c].sealed ==> IsCurrent(h, c);
      }
    }
  }

  lemma TombstoneStays(h: Host, s: Step, ttl: nat, d: Daemon)
    requires Inv(h) && Enabled(h, s) && d in h.daemons && h.daemons[d].tombstone && h.daemons[d].current.None?
    ensures var n := Next(h, s, ttl);
            && d in n.daemons && n.daemons[d].tombstone && n.daemons[d].current.None?
            && (forall c :: c in n.carriers && n.carriers[c].daemon == d ==> c in h.carriers && h.carriers[c].daemon == d)
  {
    match s
    case Dial(_, _, _) =>
    case Tick(_, _, _) =>
    case Revoke(_) =>
    case Shutdown(_) =>
    case _ =>
  }

  /** A sealed carrier stays sealed and never gets another reader ticket. */
  lemma {:induction false} NoTicketAfterSeal(h: Host, steps: seq<Step>, ttl: nat, c: CarrierId)
    requires Runnable(h, steps, ttl) && c in h.carriers && h.carriers[c].sealed
    ensures var n := Run(h, steps, ttl); c in n.carriers && n.carriers[c].sealed && n.carriers[c].tickets == h.carriers[c].tickets
    decreases |steps|
  {
    if steps != [] {
      SealedStays(h, steps[0], ttl, c);
      NoTicketAfterSeal(Next(h, steps[0], ttl), steps[1..], ttl, c);
    }
  }

  lemma SealedStays(h: Host, s: Step, ttl: nat, c: CarrierId)
    requires Enabled(h, s) && c in h.carriers && h.carriers[c].sealed
    ensures var n := Next(h, s, ttl); c in n.carriers && n.carriers[c].sealed && n.carriers[c].tickets == h.carriers[c].tickets
  {
    match s
    case Dial(_, _, _) =>
    case Tick(_, _, _) =>
    case Revoke(_) =>
    case Shutdown(_) =>
    case _ =>
  }

  /** A lease moves only on a reply to a probe sent since its last renewal. */
  lemma RenewalIsARoundTrip(h: Host, s: Step, ttl: nat, c: CarrierId)
    requires Inv(h) && Enabled(h, s) && c in h.carriers
    requires Next(h, s, ttl).carriers[c].lastSeen != h.carriers[c].lastSeen
    ensures s.Reply? && s.carrier == c && s.nonce in h.carriers[c].sentSince
  {
    match s
    case Dial(_, _, _) =>
    case Tick(_, _, _) =>
    case Revoke(_) =>
    case Shutdown(_) =>
    case _ =>
  }

  // ------------------------------------------------------------ prompt peers

  /** The carrier is asked and answers, asked and answers: each probe is replied to
      before the next tick.  Nothing shuts it down or revokes it meanwhile. */
  ghost predicate Prompt(steps: seq<Step>, c: CarrierId, d: Daemon, asked: Option<Nonce>)
    decreases |steps|
  {
    if steps == [] then true
    else match steps[0]
      case Tick(k, _, nonce) =>
        if k == c then asked.None? && Prompt(steps[1..], c, d, Some(nonce)) else Prompt(steps[1..], c, d, asked)
      case Reply(k, nonce, _) => Prompt(steps[1..], c, d, if k == c && asked == Some(nonce) then None else asked)
      case Shutdown(k) => k != c && Prompt(steps[1..], c, d, asked)
      case Revoke(e) => e != d && Prompt(steps[1..], c, d, asked)
      case _ => Prompt(steps[1..], c, d, asked)
  }

  ghost predicate Served(h: Host, c: CarrierId, d: Daemon, asked: Option<Nonce>) {
    && c in h.carriers && h.carriers[c].daemon == d && !h.carriers[c].sealed
    && h.carriers[c].outstanding == if asked.Some? then [asked.value] else []
  }

  /** A carrier that answers each probe before the next tick is never reaped by its
      lease, for any TTL whatever, however slow the clock makes the ticks look. */
  lemma {:induction false} PromptIsNeverReaped(h: Host, steps: seq<Step>, ttl: nat, c: CarrierId, d: Daemon, asked: Option<Nonce>)
    requires Inv(h) && Runnable(h, steps, ttl) && Prompt(steps, c, d, asked) && Served(h, c, d, asked)
    ensures var n := Run(h, steps, ttl); c in n.carriers && !n.carriers[c].sealed && IsCurrent(n, c)
    decreases |steps|
  {
    if steps == [] {
      assert IsCurrent(h, c);
    } else {
      StepKeepsInv(h, steps[0], ttl);
      var next := PromptStep(h, steps[0], ttl, c, d, asked);
      assert Prompt(steps[1..], c, d, next);
      PromptIsNeverReaped(Next(h, steps[0], ttl), steps[1..], ttl, c, d, next);
    }
  }

  lemma PromptStep(h: Host, s: Step, ttl: nat, c: CarrierId, d: Daemon, asked: Option<Nonce>) returns (next: Option<Nonce>)
    requires Inv(h) && Enabled(h, s) && Served(h, c, d, asked)
    requires s.Tick? && s.carrier == c ==> asked.None?
    requires s.Shutdown? ==> s.carrier != c
    requires s.Revoke? ==> s.daemon != d
    ensures Served(Next(h, s, ttl), c, d, next)
    ensures next == match s
                    case Tick(k, _, nonce) => if k == c then Some(nonce) else asked
                    case Reply(k, nonce, _) => if k == c && asked == Some(nonce) then None else asked
                    case _ => asked
  {
    assert IsCurrent(h, c);
    match s
    case Tick(k, _, nonce) => next := if k == c then Some(nonce) else asked;
    case Reply(k, nonce, _) => next := if k == c && asked == Some(nonce) then None else asked;
    case Revoke(e) => next := asked; OtherDaemonUntouched(h, e, c);
    case _ => next := asked;
  }

  lemma OtherDaemonUntouched(h: Host, e: Daemon, c: CarrierId)
    requires Inv(h) && c in h.carriers && h.carriers[c].daemon != e
    ensures RevokeDaemon(h, e).carriers[c] == h.carriers[c]
  {
  }

  /** The other half: a lease that ran out over an unanswered probe is reaped. */
  lemma SilentIsReaped(h: Host, c: CarrierId, now: Millis, nonce: Nonce, ttl: nat)
    requires Inv(h) && c in h.carriers && h.carriers[c].outstanding != [] && now - h.carriers[c].lastSeen > ttl
    ensures Next(h, Tick(c, now, nonce), ttl).carriers[c].sealed
  {
    assert !h.carriers[c].sealed ==> IsCurrent(h, c);
  }

  // ------------------------------------------------------------- whose proof

  /** The host takes this step as proof that the carrier is alive: its admission, or a reply
      to a probe of it that is still outstanding. */
  ghost predicate Proves(h: Host, s: Step, c: CarrierId) {
    match s
    case Dial(k, d, now) => k == c && k !in h.carriers && Admit(h, k, d, now).1.Admitted?
    case Reply(k, nonce, _) => k == c && k in h.carriers && IsCurrent(h, k) && nonce in h.carriers[k].outstanding
    case _ => false
  }

  /** When the last proof came, read off the run; `seen` if there was none. */
  ghost function LastProof(h: Host, steps: seq<Step>, ttl: nat, c: CarrierId, seen: Millis): Millis
    requires Runnable(h, steps, ttl)
    decreases |steps|
  {
    if steps == [] then seen
    else LastProof(Next(h, steps[0], ttl), steps[1..], ttl, c, if Proves(h, steps[0], c) then steps[0].now else seen)
  }

  lemma ProofMovesTheLease(h: Host, s: Step, ttl: nat, c: CarrierId)
    requires Inv(h) && Enabled(h, s) && c in Next(h, s, ttl).carriers
    ensures Proves(h, s, c) ==> Next(h, s, ttl).carriers[c].lastSeen == s.now
    ensures !Proves(h, s, c) ==> c in h.carriers && Next(h, s, ttl).carriers[c].lastSeen == h.carriers[c].lastSeen
  {
    match s
    case Dial(_, _, _) =>
    case Tick(_, _, _) =>
    case Reply(_, _, _) =>
    case Revoke(_) =>
    case Shutdown(_) =>
    case _ =>
  }

  lemma KnownStays(h: Host, s: Step, ttl: nat, c: CarrierId)
    requires Enabled(h, s) && c in h.carriers
    ensures c in Next(h, s, ttl).carriers
  {
    match s
    case Dial(_, _, _) =>
    case Tick(_, _, _) =>
    case Revoke(_) =>
    case Shutdown(_) =>
    case _ =>
  }

  lemma {:induction false} LeaseIsLastProof(h: Host, steps: seq<Step>, ttl: nat, c: CarrierId, seen: Millis)
    requires Inv(h) && Runnable(h, steps, ttl) && c in Run(h, steps, ttl).carriers
    requires c in h.carriers ==> h.carriers[c].lastSeen == seen
    ensures Run(h, steps, ttl).carriers[c].lastSeen == LastProof(h, steps, ttl, c, seen)
    decreases |steps|
  {
    if steps != [] {
      var n := Next(h, steps[0], ttl);
      StepKeepsInv(h, steps[0], ttl);
      if c in n.carriers { ProofMovesTheLease(h, steps[0], ttl, c); }
      else if Proves(h, steps[0], c) && steps[0].Reply? { KnownStays(h, steps[0], ttl, c); }
      LeaseIsLastProof(n, steps[1..], ttl, c, if Proves(h, steps[0], c) then steps[0].now else seen);
    }
  }

  /** Over every run a tick reaps a live carrier if and only if more than the TTL has passed
      since its admission or its last accepted reply and a probe is unanswered. */
  lemma ReapedIffOverdue(steps: seq<Step>, ttl: nat, c: CarrierId, now: Millis, nonce: Nonce)
    requires Runnable(Start, steps, ttl)
    requires c in Run(Start, steps, ttl).carriers && !Run(Start, steps, ttl).carriers[c].sealed
    ensures var h := Run(Start, steps, ttl);
            Next(h, Tick(c, now, nonce), ttl).carriers[c].sealed <==>
              now - LastProof(Start, steps, ttl, c, 0) > ttl && h.carriers[c].outstanding != []
  {
    RunKeepsInv(Start, steps, ttl);
    LeaseIsLastProof(Start, steps, ttl, c, 0);
    var h := Run(Start, steps, ttl);
    assert IsCurrent(h, c);
  }

  lemma SealKeepsTombstone(h: Host, c: CarrierId, d: Daemon)
    requires c in h.carriers
    ensures RowOf(Seal(h, c), d).tombstone == RowOf(h, d).tombstone && Seal(h, c).closed == h.closed
  {
  }

  lemma StepTombstone(h: Host, s: Step, ttl: nat, d: Daemon)
    requires Enabled(h, s)
    ensures RowOf(Next(h, s, ttl), d).tombstone == (RowOf(h, d).tombstone || s == Revoke(d))
    ensures Next(h, s, ttl).closed == (h.closed || s == CloseHost)
  {
    match s
    case Tick(c, _, _) => SealKeepsTombstone(h, c, d);
    case Shutdown(c) => SealKeepsTombstone(h, c, d);
    case Revoke(e) =>
      var row := RowOf(h, e).(tombstone := true);
      var marked := h.(daemons := h.daemons[e := row]);
      if row.current.Some? && row.current.value in h.carriers { SealKeepsTombstone(marked, row.current.value, d); }
    case _ =>
  }

  lemma {:induction false} RunTombstone(h: Host, steps: seq<Step>, ttl: nat, d: Daemon)
    requires Runnable(h, steps, ttl)
    ensures RowOf(Run(h, steps, ttl), d).tombstone == (RowOf(h, d).tombstone || Revoke(d) in steps)
    ensures Run(h, steps, ttl).closed == (h.closed || CloseHost in steps)
    decreases |steps|
  {
    if steps != [] {
      StepTombstone(h, steps[0], ttl, d);
      RunTombstone(Next(h, steps[0], ttl), steps[1..], ttl, d);
      assert steps == [steps[0]] + steps[1..];
    }
  }

  /** After every run a carrier is admitted exactly when the host was never closed, its
      daemon never revoked, and no unsealed carrier of that daemon is left. */
  lemma AdmittedIff(steps: seq<Step>, ttl: nat, c: CarrierId, d: Daemon, now: Millis)
    requires Runnable(Start, steps, ttl) && c !in Run(Start, steps, ttl).carriers
    ensures var h := Run(Start, steps, ttl);
            Admit(h, c, d, now).1.Admitted? <==>
              && CloseHost !in steps && Revoke(d) !in steps
              && forall k :: k in h.carriers && h.carriers[k].daemon == d ==> h.carriers[k].sealed
  {
    RunKeepsInv(Start, steps, ttl);
    RunTombstone(Start, steps, ttl, d);
    var h := Run(Start, steps, ttl);
    if k :| k in h.carriers && h.carriers[k].daemon == d && !h.carriers[k].sealed {
      assert IsCurrent(h, k);
    }
  }

  /** The tickets asked of a carrier while it stood unsealed. */
  ghost function Asked(h: Host, steps: seq<Step>, ttl: nat, c: CarrierId): nat
    requires Runnable(h, steps, ttl)
    decreases |steps|
  {
    if steps == [] then 0
    else
      (if steps[0] == Ticket(c) && !h.carriers[c].sealed then 1 else 0) + Asked(Next(h, steps[0], ttl), steps[1..], ttl, c)
  }

  function Tickets(h: Host, c: CarrierId): nat { if c in h.carriers then h.carriers[c].tickets else 0 }

  lemma SealKeepsTickets(h: Host, c: CarrierId, k: CarrierId)
    requires k in h.carriers
    ensures Tickets(Seal(h, k), c) == Tickets(h, c)
  {
  }

  lemma RevokeKeepsTickets(h: Host, d: Daemon, c: CarrierId)
    ensures Tickets(RevokeDaemon(h, d), c) == Tickets(h, c)
  {
    var row := RowOf(h, d).(tombstone := true);
    var marked := h.(daemons := h.daemons[d := row]);
    if row.current.Some? && row.current.value in h.carriers { SealKeepsTickets(marked, c, row.current.value); }
  }

  lemma TickKeepsTickets(h: Host, k: CarrierId, now: Millis, nonce: Nonce, ttl: nat, c: CarrierId)
    requires k in h.carriers
    ensures Tickets(Probed(h, k, now, nonce, ttl), c) == Tickets(h, c)
  {
    SealKeepsTickets(h, c, k);
  }

  lemma StepIssues(h: Host, s: Step, ttl: nat, c: CarrierId)
    requires Enabled(h, s)
    ensures Tickets(Next(h, s, ttl), c) == Tickets(h, c) + if s == Ticket(c) && !h.carriers[c].sealed then 1 else 0
  {
    match s
    case Dial(_, _, _) =>
    case Tick(k, now, nonce) => TickKeepsTickets(h, k, now, nonce, ttl, c);
    case Reply(_, _, _) =>
    case Shutdown(k) => SealKeepsTickets(h, c, k);
    case Revoke(d) => RevokeKeepsTickets(h, d, c);
    case Ticket(_) =>
    case _ =>
  }

  /** Over every run a carrier has issued exactly the tickets asked of it while unsealed. */
  lemma {:induction false} TicketsAreThoseAsked(h: Host, steps: seq<Step>, ttl: nat, c: CarrierId)
    requires Runnable(h, steps, ttl)
    ensures Tickets(Run(h, steps, ttl), c) == Tickets(h, c) + Asked(h, steps, ttl, c)
    decreases |steps|
  {
    if steps != [] {
      StepIssues(h, steps[0], ttl, c);
      TicketsAreThoseAsked(Next(h, steps[0], ttl), steps[1..], ttl, c);
    }
  }
}
