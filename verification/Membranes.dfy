/** Generation fences: a channel's membrane is registered and unregistered by
    callbacks that may arrive in any order. */
module Membranes {

  type Channel = string

  /** The host's table.  A fence remembers the highest generation retired while no
      row is installed; installing spends it. */
  datatype Table = Table(closed: bool, rows: map<Channel, nat>, fences: map<Channel, nat>)

  function Fence(t: Table, ch: Channel): nat {
    if ch in t.fences then t.fences[ch] else 0
  }

  function Registered(t: Table, ch: Channel, gen: nat): Table {
    if ch == "" || gen == 0 || t.closed || gen <= Fence(t, ch) || (ch in t.rows && gen < t.rows[ch]) then t
    else t.(rows := t.rows[ch := gen], fences := t.fences - {ch})
  }

  function Unregistered(t: Table, ch: Channel, gen: nat): Table {
    if t.closed || ch !in t.rows || t.rows[ch] != gen then t
    else t.(rows := t.rows - {ch}, fences := if Fence(t, ch) < gen then t.fences[ch := gen] else t.fences)
  }

  class MembraneTable {
    var closed: bool
    var membranes: map<Channel, nat>
    var retiredMembranes: map<Channel, nat>

    ghost function View(): Table
      reads this
    {
      Table(closed, membranes, retiredMembranes)
    }

    constructor ()
      ensures View() == Table(false, map[], map[])
    {
      closed, membranes, retiredMembranes := false, map[], map[];
    }

    method Register(ch: Channel, gen: nat)
      modifies this
      ensures View() == Registered(old(View()), ch, gen)
    {
      if ch == "" || gen == 0 {
        return;
      }
      if closed {
        return;
      }
      if gen <= (if ch in retiredMembranes then retiredMembranes[ch] else 0) {
        return;
      }
      if ch in membranes && membranes[ch] > gen {
        return;
      }
      membranes := membranes[ch := gen];
      retiredMembranes := retiredMembranes - {ch};
    }

    method Unregister(ch: Channel, gen: nat)
      modifies this
      ensures View() == Unregistered(old(View()), ch, gen)
    {
      if closed || ch !in membranes || membranes[ch] != gen {
        return;
      }
      if gen > (if ch in retiredMembranes then retiredMembranes[ch] else 0) {
        retiredMembranes := retiredMembranes[ch := gen];
      }
      membranes := membranes - {ch};
    }
  }

  // --------------------------------------------------------------- reference

  datatype Call = Register(channel: Channel, gen: nat) | Unregister(channel: Channel, gen: nat) | Close

  function Step(t: Table, c: Call): Table {
    match c
    case Register(ch, gen) => Registered(t, ch, gen)
    case Unregister(ch, gen) => Unregistered(t, ch, gen)
    case Close => t.(closed := true)
  }

  /** The reference forgets nothing: every generation ever retired, per channel. */
  datatype Memory = Memory(closed: bool, rows: map<Channel, nat>, retired: set<(Channel, nat)>)

  ghost predicate Outranks(retired: set<(Channel, nat)>, ch: Channel, gen: nat) {
    forall g :: (ch, g) in retired ==> g < gen
  }

  ghost function Remember(m: Memory, c: Call): Memory {
    match c
    case Register(ch, gen) =>
      if ch != "" && gen != 0 && !m.closed && Outranks(m.retired, ch, gen) && (ch in m.rows ==> m.rows[ch] <= gen)
      then m.(rows := m.rows[ch := gen]) else m
    case Unregister(ch, gen) =>
      if !m.closed && ch in m.rows && m.rows[ch] == gen
      then m.(rows := m.rows - {ch}, retired := m.retired + {(ch, gen)}) else m
    case Close => m.(closed := true)
  }

  /** The fence stands in for the whole memory of a channel without a row; a row
      outranks everything retired on its channel. */
  ghost predicate StandsFor(t: Table, m: Memory) {
    && t.closed == m.closed && t.rows == m.rows
    && (forall ch :: ch in t.rows ==> ch !in t.fences)
    && (forall ch :: ch in t.rows ==> 0 < t.rows[ch] && Outranks(m.retired, ch, t.rows[ch]))
    && (forall ch :: ch in t.fences ==> 0 < t.fences[ch] && (ch, t.fences[ch]) in m.retired)
    && (forall ch, g :: (ch, g) in m.retired && ch !in t.rows ==> ch in t.fences && g <= t.fences[ch])
    && (forall ch, g :: (ch, g) in m.retired ==> 0 < g)
  }

  lemma FenceDecides(t: Table, m: Memory, ch: Channel, gen: nat)
    requires StandsFor(t, m) && ch !in t.rows && 0 < gen
    ensures Fence(t, ch) < gen <==> Outranks(m.retired, ch, gen)
  {
  }

  lemma StepRemembers(t: Table, m: Memory, c: Call)
    requires StandsFor(t, m)
    ensures StandsFor(Step(t, c), Remember(m, c))
  {
    match c
    case Register(ch, gen) =>
      if ch !in t.rows && 0 < gen {
        FenceDecides(t, m, ch, gen);
      }
      if ch in t.rows && t.rows[ch] <= gen {
        assert Outranks(m.retired, ch, gen);
      }
    case Unregister(ch, gen) =>
    case Close =>
  }

  ghost function Run(t: Table, calls: seq<Call>): Table
    decreases |calls|
  {
    if calls == [] then t else Run(Step(t, calls[0]), calls[1..])
  }

  ghost function Recall(m: Memory, calls: seq<Call>): Memory
    decreases |calls|
  {
    if calls == [] then m else Recall(Remember(m, calls[0]), calls[1..])
  }

  /** For every sequence of calls the fenced table installs exactly what the table
      that forgets nothing installs, and a row and a fence never coexist. */
  lemma {:induction false} FenceForgetsNothing(t: Table, m: Memory, calls: seq<Call>)
    requires StandsFor(t, m)
    ensures StandsFor(Run(t, calls), Recall(m, calls))
    decreases |calls|
  {
    if calls != [] {
      StepRemembers(t, m, calls[0]);
      FenceForgetsNothing(Step(t, calls[0]), Remember(m, calls[0]), calls[1..]);
    }
  }

  lemma {:induction false} MemoryGrows(m: Memory, calls: seq<Call>)
    ensures m.retired <= Recall(m, calls).retired
    decreases |calls|
  {
    if calls != [] {
      MemoryGrows(Remember(m, calls[0]), calls[1..]);
    }
  }

  /** A generation once unregistered is never installed again, although its fence
      entry is deleted by the next install. */
  lemma RetiredNeverReturns(before: seq<Call>, after: seq<Call>, ch: Channel, gen: nat)
    requires var t := Run(Table(false, map[], map[]), before); !t.closed && ch in t.rows && t.rows[ch] == gen
    ensures var t := Run(Step(Run(Table(false, map[], map[]), before), Unregister(ch, gen)), after);
            ch in t.rows ==> gen < t.rows[ch]
  {
    var t0, m0 := Table(false, map[], map[]), Memory(false, map[], {});
    FenceForgetsNothing(t0, m0, before);
    var t1, m1 := Run(t0, before), Recall(m0, before);
    StepRemembers(t1, m1, Unregister(ch, gen));
    var t2, m2 := Step(t1, Unregister(ch, gen)), Remember(m1, Unregister(ch, gen));
    FenceForgetsNothing(t2, m2, after);
    MemoryGrows(m2, after);
    assert (ch, gen) in Recall(m2, after).retired;
  }

  /** The highest generation a channel has reached. */
  function Reached(t: Table, ch: Channel): nat {
    if ch in t.rows then t.rows[ch] else Fence(t, ch)
  }

  /** A channel's generation never goes down, installed or fenced. */
  lemma {:induction false} GenerationNeverDrops(t: Table, m: Memory, calls: seq<Call>, ch: Channel)
    requires StandsFor(t, m)
    ensures Reached(t, ch) <= Reached(Run(t, calls), ch)
    decreases |calls|
  {
    if calls != [] {
      StepRemembers(t, m, calls[0]);
      GenerationNeverDrops(Step(t, calls[0]), Remember(m, calls[0]), calls[1..], ch);
      if ch in t.rows {
        assert ch !in t.fences;
      }
    }
  }
}
