/** Lane admission on the device: one compartment per channel, lanes ordered by
    generation within one carrier, whatever order their workers arrive in. */
module LaneAdmission {
  import opened Options

  type Channel = string
  type CellId = nat
  type Carrier = nat
  type Gen = nat

  /** Generations are minted in increasing order by the server of one carrier. */
  datatype Lane = Lane(channel: Channel, carrier: Carrier, gen: Gen)

  /** One compartment: its slots and the watermark kept apart from them. */
  datatype Cell = Cell(channel: Channel, lane: Option<Lane>, pending: Option<Lane>, watermark: Option<Gen>,
                       closing: bool, condemned: bool)

  function NewCell(channel: Channel): Cell { Cell(channel, None, None, None, false, false) }

  datatype Admission = Installed | Parked | Refused

  // ------------------------------------------------------- lock-held sections

  function Accepted(c: Cell, lane: Lane, retired: bool): (Cell, Admission) {
    if retired || c.condemned then (c, Refused)
    else if c.watermark.Some? && lane.gen <= c.watermark.value then (c, Refused)
    else if c.closing then (c.(watermark := Some(lane.gen), pending := Some(lane)), Parked)
    else (c.(watermark := Some(lane.gen), lane := Some(lane)), Installed)
  }

  /** Only the exact lane leaves its slot; the watermark stays. */
  function WithoutLane(c: Cell, lane: Lane): Cell {
    if c.pending == Some(lane) then c.(pending := None)
    else if c.lane == Some(lane) then c.(lane := None)
    else c
  }

  function ClosingBegun(c: Cell): Cell { c.(closing := true, pending := None) }

  function LaneTaken(c: Cell): Cell { c.(lane := None) }

  function PendingTaken(c: Cell): Cell { c.(pending := None) }

  function Condemned(c: Cell): Cell { c.(condemned := true, lane := None, pending := None) }

  function CarrierLost(c: Cell): Cell { c.(lane := None, pending := None, watermark := None) }

  /** The compartment object. */
  class Compartment {
    const channel: Channel
    var lane: Option<Lane>
    var pending: Option<Lane>
    var latestLaneGen: Option<Gen>
    var closing: bool
    var condemned: bool

    ghost function View(): Cell
      reads this
    {
      Cell(channel, lane, pending, latestLaneGen, closing, condemned)
    }

    constructor (ch: Channel)
      ensures View() == NewCell(ch)
    {
      channel, lane, pending, latestLaneGen, closing, condemned := ch, None, None, None, false, false;
    }

    method AcceptLane(next: Lane, retired: bool) returns (verdict: Admission, displaced: Option<Lane>)
      modifies this
      ensures (View(), verdict) == Accepted(old(View()), next, retired)
      ensures displaced == if verdict.Installed? then old(lane) else if verdict.Parked? then old(pending) else None
    {
      if retired || condemned {
        return Refused, None;
      }
      if latestLaneGen.Some? && next.gen <= latestLaneGen.value {
        return Refused, None;
      }
      latestLaneGen := Some(next.gen);
      if closing {
        displaced := pending;
        pending := Some(next);
        return Parked, displaced;
      }
      displaced := lane;
      lane := Some(next);
      return Installed, displaced;
    }

    method LaneDown(exact: Lane)
      modifies this
      ensures View() == WithoutLane(old(View()), exact)
    {
      if pending == Some(exact) {
        pending := None;
        return;
      }
      if lane != Some(exact) {
        return;
      }
      lane := None;
    }

    method Condemn()
      modifies this
      ensures View() == Condemned(old(View()))
    {
      condemned, lane, pending := true, None, None;
    }

    method LoseCarrier()
      modifies this
      ensures View() == CarrierLost(old(View()))
    {
      lane, pending, latestLaneGen := None, None, None;
    }
  }

  // ----------------------------------------------------------------- manager

  /** The log: a lane admitted at a coordinate, or a cell leaving its coordinate. */
  datatype Mark =
    | Admitted(cell: CellId, channel: Channel, carrier: Carrier, gen: Gen)
    | Forgotten(channel: Channel)

  /** The manager: the carrier it holds, the cells at their coordinates, every cell
      object, the cells a lost carrier has yet to clear, the carriers ever held,
      and the log. */
  datatype Manager = Manager(
    closed: bool, carrier: Option<Carrier>, cells: map<Channel, CellId>, objects: map<CellId, Cell>,
    stale: set<CellId>, carriers: set<Carrier>, log: seq<Mark>)

  const Start := Manager(false, None, map[], map[], {}, {}, [])

  datatype Step =
    | Bind(carrier: Carrier)
    | CarrierDown
    | ClearCell(cell: CellId)
    | Accept(lane: Lane, retired: bool, minted: CellId)
    | LaneDown(cell: CellId, lane: Lane)
    | BeginClose(cell: CellId)
    | TakeLane(cell: CellId)
    | Condemn(cell: CellId)
    | Forget(cell: CellId)
    | TakePending(cell: CellId)
    | Close

  /** The redial loop binds the next carrier only after the last one's cells are
      cleared; carriers and cell objects are never reused. */
  predicate Enabled(m: Manager, s: Step) {
    match s
    case Bind(k) => m.carrier.None? && m.stale == {} && k !in m.carriers
    case CarrierDown => m.carrier.Some?
    case ClearCell(c) => c in m.stale && c in m.objects
    case Accept(_, _, minted) => minted !in m.objects
    case Close => true
    case LaneDown(c, _) => c in m.objects
    case _ => s.cell in m.objects
  }

  function OnCell(m: Manager, id: CellId, c: Cell): Manager
    requires id in m.objects
  {
    m.(objects := m.objects[id := c])
  }

  function Next(m: Manager, s: Step): Manager
    requires Enabled(m, s)
  {
    match s
    case Bind(k) => if m.closed then m else m.(carrier := Some(k), carriers := m.carriers + {k})
    case CarrierDown => m.(carrier := None, stale := set ch | ch in m.cells :: m.cells[ch])
    case ClearCell(c) => OnCell(m, c, CarrierLost(m.objects[c])).(stale := m.stale - {c})
    case Accept(lane, retired, minted) =>
      if m.closed || m.carrier != Some(lane.carrier) then m
      else
        var known := lane.channel in m.cells && m.cells[lane.channel] in m.objects;
        var id := if known then m.cells[lane.channel] else minted;
        var (c, verdict) := Accepted(if known then m.objects[id] else NewCell(lane.channel), lane, retired);
        m.(cells := m.cells[lane.channel := id], objects := m.objects[id := c],
           log := if verdict.Refused? then m.log else m.log + [Admitted(id, lane.channel, lane.carrier, lane.gen)])
    case LaneDown(c, lane) => OnCell(m, c, WithoutLane(m.objects[c], lane))
    case BeginClose(c) => OnCell(m, c, ClosingBegun(m.objects[c]))
    case TakeLane(c) => OnCell(m, c, LaneTaken(m.objects[c]))
    case Condemn(c) => OnCell(m, c, Condemned(m.objects[c]))
    case Forget(c) =>
      var ch := m.objects[c].channel;
      if ch in m.cells && m.cells[ch] == c then m.(cells := m.cells - {ch}, log := m.log + [Forgotten(ch)]) else m
    case TakePending(c) => OnCell(m, c, PendingTaken(m.objects[c]))
    case Close => m.(closed := true)
  }

  // --------------------------------------------------------------- invariant

  /** The slots never run ahead of the watermark; outside teardown the installed
      lane is the watermark, and a parked lane always is. */
  ghost predicate CellSound(c: Cell) {
    && (c.pending.Some? ==> c.closing && c.watermark == Some(c.pending.value.gen))
    && (c.lane.Some? ==> c.watermark.Some? && c.lane.value.gen <= c.watermark.value)
    && (c.lane.Some? && !c.closing ==> c.watermark == Some(c.lane.value.gen))
    && (c.lane.Some? && c.pending.Some? ==> c.lane.value.gen < c.pending.value.gen)
  }

  /** What one cell admitted on one carrier only ever went up. */
  ghost predicate Increasing(log: seq<Mark>) {
    forall i, j | 0 <= i < j < |log| && log[i].Admitted? && log[j].Admitted? &&
                  log[i].cell == log[j].cell && log[i].carrier == log[j].carrier
      :: log[i].gen < log[j].gen
  }

  /** On the current carrier the watermark dominates everything admitted. */
  ghost predicate Dominates(m: Manager) {
    forall i :: 0 <= i < |m.log| && m.log[i].Admitted? ==>
      && m.log[i].cell in m.objects
      && m.log[i].carrier in m.carriers
      && (m.carrier == Some(m.log[i].carrier) ==>
            var w := m.objects[m.log[i].cell].watermark; w.Some? && m.log[i].gen <= w.value)
  }

  /** The channel's coordinate was not forgotten in this stretch of the log. */
  ghost predicate Kept(log: seq<Mark>, ch: Channel, lo: nat, hi: nat)
    requires hi <= |log|
  {
    forall k :: lo <= k < hi ==> log[k] != Forgotten(ch)
  }

  /** A cell stays at its coordinate until it is forgotten there. */
  ghost predicate Settled(m: Manager, i: nat)
    requires i < |m.log| && m.log[i].Admitted?
  {
    Kept(m.log, m.log[i].channel, i, |m.log|) ==>
      m.log[i].channel in m.cells && m.cells[m.log[i].channel] == m.log[i].cell
  }

  /** Admissions at a coordinate that was not forgotten between them are of one cell. */
  ghost predicate OneCell(log: seq<Mark>) {
    forall i, j | 0 <= i < j < |log| && log[i].Admitted? && log[j].Admitted? &&
                  log[i].channel == log[j].channel && Kept(log, log[i].channel, i, j)
      :: log[i].cell == log[j].cell
  }

  /** A watermark at a coordinate is a generation its cell admitted on the current carrier;
      once that carrier is lost the cell is still to be cleared. */
  ghost predicate Remembers(m: Manager, ch: Channel)
    requires ch in m.cells && m.cells[ch] in m.objects
  {
    var w := m.objects[m.cells[ch]].watermark;
    w.Some? ==>
      if m.carrier.Some? then Admitted(m.cells[ch], ch, m.carrier.value, w.value) in m.log
      else m.cells[ch] in m.stale
  }

  ghost predicate Inv(m: Manager) {
    && (forall id :: id in m.objects ==> CellSound(m.objects[id]))
    && (forall ch :: ch in m.cells ==> m.cells[ch] in m.objects && m.objects[m.cells[ch]].channel == ch)
    && Increasing(m.log)
    && Dominates(m)
    && (m.stale != {} ==> m.carrier.None?)
    && (m.carrier.Some? ==> m.carrier.value in m.carriers)
    && OneCell(m.log)
    && (forall i :: 0 <= i < |m.log| && m.log[i].Admitted? ==> Settled(m, i))
    && (forall ch :: ch in m.cells ==> Remembers(m, ch))
  }

  lemma SectionsKeepCellSound(c: Cell, lane: Lane, retired: bool)
    requires CellSound(c)
    ensures CellSound(Accepted(c, lane, retired).0) && CellSound(WithoutLane(c, lane)) && CellSound(ClosingBegun(c))
    ensures CellSound(LaneTaken(c)) && CellSound(Condemned(c)) && CellSound(CarrierLost(c)) && CellSound(PendingTaken(c))
  {
  }

  lemma StepKeepsSound(m: Manager, s: Step, id: CellId)
    requires (forall c :: c in m.objects ==> CellSound(m.objects[c])) && Enabled(m, s) && id in Next(m, s).objects
    ensures CellSound(Next(m, s).objects[id])
  {
    var lane := if s.Accept? || s.LaneDown? then s.lane else Lane("", 0, 0);
    var retired := s.Accept? && s.retired;
    SectionsKeepCellSound(if id in m.objects then m.objects[id] else NewCell(lane.channel), lane, retired);
  }

  lemma StepKeepsCells(m: Manager, s: Step)
    requires Inv(m) && Enabled(m, s)
    ensures forall id :: id in Next(m, s).objects ==> CellSound(Next(m, s).objects[id])
    ensures forall ch :: ch in Next(m, s).cells ==>
              Next(m, s).cells[ch] in Next(m, s).objects && Next(m, s).objects[Next(m, s).cells[ch]].channel == ch
  {
    forall id | id in Next(m, s).objects
      ensures CellSound(Next(m, s).objects[id])
    {
      StepKeepsSound(m, s, id);
    }
  }

  lemma StepKeepsIncreasing(m: Manager, s: Step)
    requires Inv(m) && Enabled(m, s)
    ensures Increasing(Next(m, s).log)
  {
    match s
    case Accept(lane, _, minted) =>
    case _ =>
  }

  lemma StepKeepsDominates(m: Manager, s: Step)
    requires Inv(m) && Enabled(m, s)
    ensures Dominates(Next(m, s))
  {
    match s
    case Accept(lane, _, minted) =>
    case _ =>
  }

  /** One more mark: what held of the log before holds of its prefix. */
  lemma KeptBefore(log: seq<Mark>, mark: Mark, ch: Channel, lo: nat, hi: nat)
    requires hi <= |log| && Kept(log + [mark], ch, lo, hi)
    ensures Kept(log, ch, lo, hi)
  {
    forall k | lo <= k < hi
      ensures log[k] != Forgotten(ch)
    {
      assert (log + [mark])[k] == log[k];
    }
  }

  lemma AdmitKeepsPlaces(m: Manager, n: Manager, mark: Mark)
    requires Inv(m) && mark.Admitted? && n.log == m.log + [mark]
    requires n.cells == m.cells[mark.channel := mark.cell]
    requires mark.channel in m.cells ==> m.cells[mark.channel] == mark.cell
    ensures OneCell(n.log) && forall i :: 0 <= i < |n.log| && n.log[i].Admitted? ==> Settled(n, i)
  {
    forall i, j | 0 <= i < j < |n.log| && n.log[i].Admitted? && n.log[j].Admitted? &&
                  n.log[i].channel == n.log[j].channel && Kept(n.log, n.log[i].channel, i, j)
      ensures n.log[i].cell == n.log[j].cell
    {
      KeptBefore(m.log, mark, n.log[i].channel, i, j);
      if j == |m.log| { assert Settled(m, i); }
    }
    forall i | 0 <= i < |n.log| && n.log[i].Admitted?
      ensures Settled(n, i)
    {
      if i < |m.log| && Kept(n.log, n.log[i].channel, i, |n.log|) {
        KeptBefore(m.log, mark, n.log[i].channel, i, |m.log|);
        assert Settled(m, i);
      }
    }
  }

  lemma ForgetKeepsPlaces(m: Manager, n: Manager, ch: Channel)
    requires Inv(m) && n.log == m.log + [Forgotten(ch)] && n.cells == m.cells - {ch}
    ensures OneCell(n.log) && forall i :: 0 <= i < |n.log| && n.log[i].Admitted? ==> Settled(n, i)
  {
    forall i, j | 0 <= i < j < |n.log| && n.log[i].Admitted? && n.log[j].Admitted? &&
                  n.log[i].channel == n.log[j].channel && Kept(n.log, n.log[i].channel, i, j)
      ensures n.log[i].cell == n.log[j].cell
    {
      KeptBefore(m.log, Forgotten(ch), n.log[i].channel, i, j);
    }
    forall i | 0 <= i < |n.log| && n.log[i].Admitted?
      ensures Settled(n, i)
    {
      assert n.log[|m.log|] == Forgotten(ch);
      if n.log[i].channel != ch && Kept(n.log, n.log[i].channel, i, |n.log|) {
        KeptBefore(m.log, Forgotten(ch), n.log[i].channel, i, |m.log|);
        assert Settled(m, i);
      }
    }
  }

  lemma SameKeepsPlaces(m: Manager, n: Manager)
    requires Inv(m) && n.log == m.log && forall ch :: ch in m.cells ==> ch in n.cells && n.cells[ch] == m.cells[ch]
    ensures OneCell(n.log) && forall i :: 0 <= i < |n.log| && n.log[i].Admitted? ==> Settled(n, i)
  {
    forall i | 0 <= i < |n.log| && n.log[i].Admitted?
      ensures Settled(n, i)
    {
      assert Settled(m, i);
    }
  }

  lemma StepKeepsPlaces(m: Manager, s: Step)
    requires Inv(m) && Enabled(m, s)
    ensures OneCell(Next(m, s).log)
    ensures forall i :: 0 <= i < |Next(m, s).log| && Next(m, s).log[i].Admitted? ==> Settled(Next(m, s), i)
  {
    var n := Next(m, s);
    if n.log == m.log {
      SameKeepsPlaces(m, n);
    } else if s.Accept? {
      AdmitKeepsPlaces(m, n, n.log[|m.log|]);
    } else {
      ForgetKeepsPlaces(m, n, m.objects[s.cell].channel);
    }
  }

  lemma StepRemembers(m: Manager, s: Step, ch: Channel)
    requires Inv(m) && Enabled(m, s) && ch in Next(m, s).cells && Next(m, s).cells[ch] in Next(m, s).objects
    ensures Remembers(Next(m, s), ch)
  {
    if ch in m.cells { assert Remembers(m, ch); }
    var n := Next(m, s);
    assert forall mark :: mark in m.log ==> mark in n.log;
  }

  lemma StepKeepsInv(m: Manager, s: Step)
    requires Inv(m) && Enabled(m, s)
    ensures Inv(Next(m, s))
  {
    StepKeepsCells(m, s);
    StepKeepsIncreasing(m, s);
    StepKeepsDominates(m, s);
    StepKeepsPlaces(m, s);
    forall ch | ch in Next(m, s).cells
      ensures Remembers(Next(m, s), ch)
    {
      StepRemembers(m, s, ch);
    }
  }

  // ------------------------------------------------------------------- runs

  ghost predicate Runnable(m: Manager, steps: seq<Step>)
    decreases |steps|
  {
    steps == [] || (Enabled(m, steps[0]) && Runnable(Next(m, steps[0]), steps[1..]))
  }

  ghost function Run(m: Manager, steps: seq<Step>): Manager
    requires Runnable(m, steps)
    decreases |steps|
  {
    if steps == [] then m else Run(Next(m, steps[0]), steps[1..])
  }

  lemma {:induction false} RunKeepsInv(m: Manager, steps: seq<Step>)
    requires Inv(m) && Runnable(m, steps)
    ensures Inv(Run(m, steps))
    decreases |steps|
  {
    if steps != [] {
      StepKeepsInv(m, steps[0]);
      RunKeepsInv(Next(m, steps[0]), steps[1..]);
    }
  }

  /** Over every run: one compartment on one carrier admits strictly increasing
      generations; a parked lane carries the watermark, and so does an installed
      lane outside teardown. */
  lemma GenerationsOnlyIncrease(steps: seq<Step>)
    requires Runnable(Start, steps)
    ensures var m := Run(Start, steps);
            Increasing(m.log) && forall id :: id in m.objects ==> CellSound(m.objects[id])
  {
    RunKeepsInv(Start, steps);
  }

  /** At a coordinate the order holds while the coordinate is kept: two admissions of one
      channel on one carrier are out of order only if it was forgotten between them. */
  lemma OutOfOrderMeansForgotten(steps: seq<Step>, i: nat, j: nat)
    requires Runnable(Start, steps)
    requires var log := Run(Start, steps).log;
             && i < j < |log| && log[i].Admitted? && log[j].Admitted?
             && log[i].channel == log[j].channel && log[i].carrier == log[j].carrier
             && log[j].gen <= log[i].gen
    ensures var log := Run(Start, steps).log;
            exists k :: i < k < j && log[k] == Forgotten(log[i].channel)
  {
    RunKeepsInv(Start, steps);
    var log := Run(Start, steps).log;
    assert !Kept(log, log[i].channel, i, j);
  }

  /** Where a cell stands, after every run: a lane of the current carrier is admitted exactly
      when it is live, the cell is not condemned and the generation is newer than all the
      cell admitted on that carrier.  Then it takes the slot; otherwise the cell is as it was. */
  lemma AdmittedIffNewest(steps: seq<Step>, lane: Lane, retired: bool, minted: CellId)
    requires Runnable(Start, steps)
    requires var m := Run(Start, steps);
             && !m.closed && m.carrier == Some(lane.carrier) && minted !in m.objects
             && lane.channel in m.cells && m.cells[lane.channel] in m.objects
    ensures var m := Run(Start, steps);
            var n, id := Next(m, Accept(lane, retired, minted)), m.cells[lane.channel];
            if !retired && !m.objects[id].condemned &&
               forall g: Gen :: Admitted(id, lane.channel, lane.carrier, g) in m.log ==> g < lane.gen
            then
              && n.log == m.log + [Admitted(id, lane.channel, lane.carrier, lane.gen)]
              && (if m.objects[id].closing then n.objects[id].pending else n.objects[id].lane) == Some(lane)
            else n.log == m.log && n.objects[id] == m.objects[id]
  {
    RunKeepsInv(Start, steps);
    var m := Run(Start, steps);
    assert Remembers(m, lane.channel);
  }

  /** After every run the end of a lane takes exactly that lane out of a cell: neither slot
      holds it, and what else they hold, the watermark and the flags are as they were. */
  lemma LaneEndsExactly(steps: seq<Step>, id: CellId, lane: Lane)
    requires Runnable(Start, steps) && id in Run(Start, steps).objects
    ensures var m := Run(Start, steps);
            var c, n := m.objects[id], Next(m, LaneDown(id, lane)).objects[id];
            && n.lane == (if c.lane == Some(lane) then None else c.lane)
            && n.pending == (if c.pending == Some(lane) then None else c.pending)
            && n == c.(lane := n.lane, pending := n.pending)
  {
    RunKeepsInv(Start, steps);
    assert CellSound(Run(Start, steps).objects[id]);
  }

  /** A condemned cell is empty, and stays condemned and empty through every later step. */
  lemma {:induction false} CondemnedForGood(m: Manager, id: CellId, steps: seq<Step>)
    requires id in m.objects && m.objects[id].condemned && m.objects[id].lane.None? && m.objects[id].pending.None?
    requires Runnable(m, steps)
    ensures var n := Run(m, steps);
            id in n.objects && n.objects[id].condemned && n.objects[id].lane.None? && n.objects[id].pending.None?
    decreases |steps|
  {
    if steps != [] {
      CondemnedForGood(Next(m, steps[0]), id, steps[1..]);
    }
  }

  lemma CondemningEmpties(m: Manager, id: CellId, steps: seq<Step>)
    requires Enabled(m, Condemn(id)) && Runnable(Next(m, Condemn(id)), steps)
    ensures var n := Run(Next(m, Condemn(id)), steps);
            id in n.objects && n.objects[id].condemned && n.objects[id].lane.None? && n.objects[id].pending.None?
  {
    CondemnedForGood(Next(m, Condemn(id)), id, steps);
  }

  lemma EmptyAdmits(m: Manager, lane: Lane, minted: CellId)
    requires !m.closed && m.carrier == Some(lane.carrier) && lane.channel !in m.cells && minted !in m.objects
    ensures Next(m, Accept(lane, false, minted)).log ==
            m.log + [Admitted(minted, lane.channel, lane.carrier, lane.gen)]
  {
  }

  lemma {:induction false} RunThen(m: Manager, steps: seq<Step>, s: Step)
    requires Runnable(m, steps) && Enabled(Run(m, steps), s)
    ensures Runnable(m, steps + [s]) && Run(m, steps + [s]) == Next(Run(m, steps), s)
    decreases |steps|
  {
    if steps == [] {
      assert steps + [s] == [s] + [];
      RunFirst(m, s, []);
    } else {
      RunThen(Next(m, steps[0]), steps[1..], s);
      RunFirst(m, steps[0], steps[1..] + [s]);
      assert steps + [s] == [steps[0]] + (steps[1..] + [s]);
    }
  }

  /** And an empty coordinate remembers nothing: after any run that leaves no cell there and
      the carrier current, a live lane of any generation whatever is the next admitted. */
  lemma EmptyCoordinateAdmitsAny(steps: seq<Step>, lane: Lane, minted: CellId)
    requires Runnable(Start, steps)
    requires var m := Run(Start, steps);
             !m.closed && m.carrier == Some(lane.carrier) && lane.channel !in m.cells && minted !in m.objects
    ensures var more := steps + [Accept(lane, false, minted)];
            && Runnable(Start, more)
            && Run(Start, more).log == Run(Start, steps).log + [Admitted(minted, lane.channel, lane.carrier, lane.gen)]
  {
    RunThen(Start, steps, Accept(lane, false, minted));
    EmptyAdmits(Run(Start, steps), lane, minted);
  }

  /** So for every channel, carrier and pair of generations there is a run that admits the
      first, closes the compartment, takes its lane and forgets the coordinate, as a close
      does, and then admits the second: the order does not survive the coordinate. */
  lemma ForgettingStartsOver(ch: Channel, carrier: Carrier, first: Gen, second: Gen) returns (steps: seq<Step>)
    ensures Runnable(Start, steps)
    ensures Run(Start, steps).log == [Admitted(0, ch, carrier, first), Forgotten(ch), Admitted(1, ch, carrier, second)]
  {
    var one, two := Accept(Lane(ch, carrier, first), false, 0), Accept(Lane(ch, carrier, second), false, 1);
    var m1 := Next(Start, Bind(carrier));
    var m2 := Next(m1, one);
    var m3 := Next(m2, BeginClose(0));
    var m4 := Next(m3, TakeLane(0));
    var m5 := Next(m4, Forget(0));
    EmptyAdmits(m1, one.lane, 0);
    EmptyAdmits(m5, two.lane, 1);
    RunFirst(m5, two, []);
    steps := [two] + [];
    RunFirst(m4, Forget(0), steps);
    steps := [Forget(0)] + steps;
    RunFirst(m3, TakeLane(0), steps);
    steps := [TakeLane(0)] + steps;
    RunFirst(m2, BeginClose(0), steps);
    steps := [BeginClose(0)] + steps;
    RunFirst(m1, one, steps);
    steps := [one] + steps;
    RunFirst(Start, Bind(carrier), steps);
    steps := [Bind(carrier)] + steps;
  }

  lemma RunFirst(m: Manager, s: Step, rest: seq<Step>)
    requires Enabled(m, s) && Runnable(Next(m, s), rest)
    ensures Runnable(m, [s] + rest) && Run(m, [s] + rest) == Run(Next(m, s), rest)
  {
    assert ([s] + rest)[1..] == rest;
  }
}
