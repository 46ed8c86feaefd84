/** The channel ledger as a reader sees it: ascending visible rows below a head. */
module Ledger {
  import opened Options

  datatype Kind = Event | Request | Response

  /** One visible row.  `wire` is the size of its bounded feed envelope, or None
      when the row cannot be transported at all. */
  datatype Row = Row(
    seqNo: int, kind: Kind, id: string, parent: string, word: string,
    terminal: bool, payload: nat, wire: Option<nat>)

  /** Bookkeeping words: capability probes, agent controls and system-door verbs. */
  predicate HousekeepingWord(word: string) {
    || word in {"actor.describe",
                "agent.context", "agent.options", "agent.hold", "agent.unhold", "agent.interrupt",
                "agent.fork", "agent.select", "agent.new", "agent.steer", "agent.compact"}
    || "system." <= word
  }

  predicate HousekeepingRequest(row: Row) {
    row.kind == Request && HousekeepingWord(row.word)
  }

  /** A root turn: a parentless conversation request. */
  predicate IsRoot(row: Row) {
    row.kind == Request && row.parent == "" && !HousekeepingWord(row.word)
  }

  predicate IsProvisional(row: Row) {
    row.kind == Response && !row.terminal
  }

  ghost predicate Ascending(rows: seq<Row>) {
    && (forall i :: 0 <= i < |rows| ==> 0 < rows[i].seqNo)
    && (forall i, j :: 0 <= i < j < |rows| ==> rows[i].seqNo < rows[j].seqNo)
  }

  ghost predicate UniqueIds(rows: seq<Row>) {
    && (forall i :: 0 <= i < |rows| ==> rows[i].id != "")
    && (forall i, j :: 0 <= i < j < |rows| ==> rows[i].id != rows[j].id)
  }

  /** An answer is never older than the visible request it answers. */
  ghost predicate AnswersFollow(rows: seq<Row>) {
    forall i, j | 0 <= i < |rows| && 0 <= j < |rows| && rows[i].kind == Request &&
                  (rows[j].kind == Response || rows[j].terminal) && rows[j].parent == rows[i].id
      :: i < j
  }

  ghost predicate WellFormed(rows: seq<Row>) {
    Ascending(rows) && UniqueIds(rows) && AnswersFollow(rows)
  }

  lemma SliceWellFormed(rows: seq<Row>, lo: nat, hi: nat)
    requires WellFormed(rows) && lo <= hi <= |rows|
    ensures WellFormed(rows[lo..hi])
  {
    var part := rows[lo..hi];
    forall i, j | 0 <= i < |part| && 0 <= j < |part| && part[i].kind == Request &&
      (part[j].kind == Response || part[j].terminal) && part[j].parent == part[i].id
      ensures i < j
    {
      assert part[i] == rows[lo + i] && part[j] == rows[lo + j];
    }
  }

  /** How many rows lie strictly below a keyset cursor. */
  function CountBelow(rows: seq<Row>, before: int): (n: nat)
    ensures n <= |rows|
  {
    if rows == [] then 0
    else if rows[|rows| - 1].seqNo < before then |rows|
    else CountBelow(rows[..|rows| - 1], before)
  }

  /** In an ascending ledger the rows below the cursor are exactly a prefix. */
  lemma {:induction false} CountBelowSplits(rows: seq<Row>, before: int, i: nat)
    requires Ascending(rows) && i < |rows|
    ensures rows[i].seqNo < before <==> i < CountBelow(rows, before)
  {
    var last := |rows| - 1;
    if before <= rows[last].seqNo && i < last {
      CountBelowSplits(rows[..last], before, i);
    }
  }

  lemma CountBelowIs(rows: seq<Row>, before: int, n: nat)
    requires Ascending(rows) && n <= |rows|
    requires 0 < n ==> rows[n - 1].seqNo < before
    requires n < |rows| ==> before <= rows[n].seqNo
    ensures CountBelow(rows, before) == n
  {
    if 0 < n { CountBelowSplits(rows, before, n - 1); }
    if n < |rows| { CountBelowSplits(rows, before, n); }
  }

  lemma CountBelowRow(rows: seq<Row>, m: nat)
    requires Ascending(rows) && m < |rows|
    ensures CountBelow(rows, rows[m].seqNo) == m
  {
    CountBelowIs(rows, rows[m].seqNo, m);
  }
}
