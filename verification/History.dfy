/** History windows: a backwards scan to a root-turn boundary, the projection of
    the window, and the row/byte truncation that turns a window into a page. */
module History {
  import opened Options
  import opened Ledger

  // ---------------------------------------------------------------- boundary

  function TerminalParents(rows: seq<Row>): set<string> {
    set r | r in rows && r.terminal :: r.parent
  }

  predicate IsCompleteRoot(rows: seq<Row>, row: Row) {
    IsRoot(row) && row.id in TerminalParents(rows)
  }

  /** Completed root turns at or after index `b`. */
  function CompleteCount(rows: seq<Row>, b: nat): nat
    requires b <= |rows|
    decreases |rows| - b
  {
    if b == |rows| then 0
    else (if IsCompleteRoot(rows, rows[b]) then 1 else 0) + CompleteCount(rows, b + 1)
  }

  lemma CompleteCountMonotone(rows: seq<Row>, b: nat, c: nat)
    requires b <= c <= |rows|
    ensures CompleteCount(rows, c) <= CompleteCount(rows, b)
    decreases c - b
  {
    if b < c { CompleteCountMonotone(rows, b + 1, c); }
  }

  predicate HasTurnRows(rows: seq<Row>) {
    exists r :: r in rows && (r.kind == Request || r.kind == Response)
  }

  predicate HasRoots(rows: seq<Row>) {
    exists r :: r in rows && IsRoot(r)
  }

  /** A window may start here: on a root turn, with enough rows and enough
      completed roots after it. */
  predicate GoodCut(rows: seq<Row>, b: nat, target: int, minimumRoots: int) {
    && b < |rows|
    && IsRoot(rows[b])
    && target <= |rows| - b
    && minimumRoots <= CompleteCount(rows, b)
  }

  /** The latest good cut below `n`. */
  function LatestGoodCut(rows: seq<Row>, n: nat, target: int, minimumRoots: int): (cut: Option<nat>)
    requires n <= |rows|
    ensures cut.Some? ==> cut.value < n && GoodCut(rows, cut.value, target, minimumRoots)
    ensures forall b :: 0 <= b < n && GoodCut(rows, b, target, minimumRoots) ==> cut.Some? && b <= cut.value
  {
    if n == 0 then None
    else if GoodCut(rows, n - 1, target, minimumRoots) then Some(n - 1)
    else LatestGoodCut(rows, n - 1, target, minimumRoots)
  }

  /** Where a window over `rows` starts, and whether it may be closed there. */
  function Boundary(rows: seq<Row>, target: int, minimumRoots: int, atBeginning: bool): (int, bool) {
    if HasRoots(rows) then
      match LatestGoodCut(rows, |rows|, target, minimumRoots)
      case Some(b) => (b, true)
      case None => (0, atBeginning)
    else if !HasTurnRows(rows) && target <= |rows| then (|rows| - target, true)
    else (0, atBeginning)
  }

  /** The index lists the scan builds agree with the reference counts. */
  ghost predicate ListsCompleteRoots(rows: seq<Row>, n: nat, ix: seq<nat>)
    requires n <= |rows|
  {
    && |ix| + CompleteCount(rows, n) == CompleteCount(rows, 0)
    && (forall p :: 0 <= p < |ix| ==> 
          && ix[p] < n && IsCompleteRoot(rows, rows[ix[p]])
          && CompleteCount(rows, ix[p]) == CompleteCount(rows, 0) - p)
  }

  ghost predicate ListsRoots(rows: seq<Row>, n: nat, ix: seq<nat>)
    requires n <= |rows|
  {
    && (forall p :: 0 <= p < |ix| ==> ix[p] < n && IsRoot(rows[ix[p]]))
    && (forall p, q :: 0 <= p < q < |ix| ==> ix[p] < ix[q])
    && (forall i :: 0 <= i < n && IsRoot(rows[i]) ==> i in ix)
  }

  /** Both cuts are roots and each rules out everything after it, so the smaller
      one is the latest good cut. */
  lemma SmallerCutIsLatest(rows: seq<Row>, target: int, minimumRoots: int, byRows: int, complete: seq<nat>)
    requires 0 < target <= |rows| && 0 < minimumRoots <= |complete|
    requires ListsCompleteRoots(rows, |rows|, complete)
    requires 0 <= byRows <= |rows| - target && IsRoot(rows[byRows])
    requires forall i :: byRows < i <= |rows| - target ==> !IsRoot(rows[i])
    ensures var byRoots := complete[|complete| - minimumRoots];
            LatestGoodCut(rows, |rows|, target, minimumRoots) == Some(if byRoots < byRows then byRoots else byRows)
  {
    var byRoots := complete[|complete| - minimumRoots];
    var b := if byRoots < byRows then byRoots else byRows;
    CompleteCountMonotone(rows, b, byRoots);
    assert GoodCut(rows, b, target, minimumRoots);
    forall c | b < c < |rows|
      ensures !GoodCut(rows, c, target, minimumRoots)
    {
      if byRoots < byRows {
        CompleteCountMonotone(rows, byRoots + 1, c);
      }
    }
  }

  lemma NoCutWithoutRootRows(rows: seq<Row>, target: int, minimumRoots: int)
    requires forall i :: 0 <= i <= |rows| - target && i < |rows| ==> !IsRoot(rows[i])
    ensures LatestGoodCut(rows, |rows|, target, minimumRoots).None?
  {
  }

  lemma NoCutWithoutEnoughRoots(rows: seq<Row>, target: int, minimumRoots: int)
    requires CompleteCount(rows, 0) < minimumRoots
    ensures LatestGoodCut(rows, |rows|, target, minimumRoots).None?
  {
    forall c | 0 <= c < |rows|
      ensures !GoodCut(rows, c, target, minimumRoots)
    {
      CompleteCountMonotone(rows, 0, c);
    }
  }

  method CollectTerminalParents(rows: seq<Row>) returns (terminalParents: set<string>)
    ensures terminalParents == TerminalParents(rows)
  {
    terminalParents := {};
    for i := 0 to |rows|
      invariant terminalParents == TerminalParents(rows[..i])
    {
      assert rows[..i + 1] == rows[..i] + [rows[i]];
      if rows[i].terminal {
        terminalParents := terminalParents + {rows[i].parent};
      }
    }
    assert rows[..|rows|] == rows;
  }

  method CollectRoots(rows: seq<Row>) returns (roots: seq<nat>, complete: seq<nat>)
    ensures ListsRoots(rows, |rows|, roots)
    ensures ListsCompleteRoots(rows, |rows|, complete)
  {
    var terminalParents := CollectTerminalParents(rows);
    roots, complete := [], [];
    for i := 0 to |rows|
      invariant ListsRoots(rows, i, roots)
      invariant ListsCompleteRoots(rows, i, complete)
    {
      if IsRoot(rows[i]) {
        roots := roots + [i];
        if rows[i].id in terminalParents {
          complete := complete + [i];
        }
      }
    }
  }

  method ScanTurnRows(rows: seq<Row>) returns (found: bool)
    ensures found <==> HasTurnRows(rows)
  {
    found := false;
    for i := 0 to |rows|
      invariant !found
      invariant forall j :: 0 <= j < i ==> rows[j].kind == Event
    {
      if rows[i].kind == Request || rows[i].kind == Response {
        found := true;
        break;
      }
    }
  }

  method LastRootAtMost(rows: seq<Row>, roots: seq<nat>, cutoff: nat) returns (boundary: int)
    requires ListsRoots(rows, |rows|, roots)
    ensures boundary == -1 || (0 <= boundary <= cutoff && boundary < |rows| && IsRoot(rows[boundary]))
    ensures forall i :: boundary < i <= cutoff && 0 <= i < |rows| ==> !IsRoot(rows[i])
  {
    boundary := -1;
    for p := 0 to |roots|
      invariant boundary == if p == 0 then -1 else roots[p - 1]
      invariant boundary <= cutoff
    {
      if roots[p] > cutoff {
        break;
      }
      boundary := roots[p];
    }
  }

  method HistoryBoundary(rows: seq<Row>, target: int, minimumRoots: int, atBeginning: bool)
    returns (boundary: int, ready: bool)
    requires 0 < target && 0 < minimumRoots
    ensures (boundary, ready) == Boundary(rows, target, minimumRoots, atBeginning)
  {
    if |rows| == 0 {
      return 0, atBeginning;
    }
    if |rows| < target && !atBeginning {
      NoCutWithoutRootRows(rows, target, minimumRoots);
      return 0, false;
    }
    var roots, complete := CollectRoots(rows);
    if |roots| == 0 {
      var hasTurnRows := ScanTurnRows(rows);
      if !hasTurnRows && |rows| >= target {
        return |rows| - target, true;
      }
      return 0, atBeginning;
    }
    assert rows[roots[0]] in rows;
    var cutoff := if |rows| - target < 0 then 0 else |rows| - target;
    boundary := LastRootAtMost(rows, roots, cutoff);
    if boundary < 0 {
      NoCutWithoutRootRows(rows, target, minimumRoots);
      if !atBeginning {
        return 0, false;
      }
      boundary := 0;
    }
    if |complete| < minimumRoots {
      NoCutWithoutEnoughRoots(rows, target, minimumRoots);
      return 0, atBeginning;
    }
    var minimumBoundary := complete[|complete| - minimumRoots];
    if target <= |rows| && IsRoot(rows[boundary]) {
      SmallerCutIsLatest(rows, target, minimumRoots, boundary, complete);
    } else {
      NoCutWithoutRootRows(rows, target, minimumRoots);
    }
    if minimumBoundary < boundary {
      boundary := minimumBoundary;
    }
    ready := true;
  }

  /** What a ready boundary promises: it is in range; a positive cut lies on a
      root turn, or at the target row of a turn-free log; away from the ledger's
      start the window holds the target rows and the completed roots asked for. */
  lemma ReadyBoundary(rows: seq<Row>, target: int, minimumRoots: int, atBeginning: bool)
    requires 0 < target && 0 < minimumRoots
    ensures var (b, ready) := Boundary(rows, target, minimumRoots, atBeginning);
            && 0 <= b <= |rows|
            && (atBeginning ==> ready)
            && (ready && 0 < b ==>
                  b < |rows| && (IsRoot(rows[b]) || (!HasTurnRows(rows) && b == |rows| - target)))
            && (ready && !atBeginning ==> target <= |rows| - b)
            && (ready && !atBeginning && HasRoots(rows) ==> minimumRoots <= CompleteCount(rows, b))
  {
  }

  /** A root counted as complete in a window has its terminal in that window. */
  lemma CountedRootsCloseInside(rows: seq<Row>, b: nat, i: nat)
    requires WellFormed(rows) && b <= i < |rows| && IsCompleteRoot(rows, rows[i])
    ensures exists j :: i < j < |rows| && rows[j].terminal && rows[j].parent == rows[i].id
    ensures IsCompleteRoot(rows[b..], rows[i])
  {
    var t :| t in rows && t.terminal && t.parent == rows[i].id;
    var j :| 0 <= j < |rows| && rows[j] == t;
    assert rows[b..][j - b] == t;
  }

  // -------------------------------------------------------------- projection

  function HousekeepingIds(rows: seq<Row>): set<string> {
    set r | r in rows && HousekeepingRequest(r) :: r.id
  }

  function CompletedIds(rows: seq<Row>): set<string> {
    set r | r in rows && r.kind == Response && r.parent != "" && r.terminal :: r.parent
  }

  predicate IsLatestProvisional(rows: seq<Row>, row: Row) {
    forall o :: o in rows && IsProvisional(o) && o.parent == row.parent ==> o.seqNo <= row.seqNo
  }

  /** A row of the window survives its projection. */
  predicate Kept(rows: seq<Row>, row: Row) {
    && row.id !in HousekeepingIds(rows)
    && row.parent !in HousekeepingIds(rows)
    && (IsProvisional(row) ==>
          row.parent != "" && row.parent !in CompletedIds(rows) && IsLatestProvisional(rows, row))
  }

  function KeptAmong(rows: seq<Row>, n: nat): (kept: seq<Row>)
    requires n <= |rows|
    ensures forall r :: r in kept <==> r in rows[..n] && Kept(rows, r)
    ensures |kept| <= n
  {
    if n == 0 then []
    else
      assert rows[..n] == rows[..n - 1] + [rows[n - 1]];
      KeptAmong(rows, n - 1) + if Kept(rows, rows[n - 1]) then [rows[n - 1]] else []
  }

  function Project(rows: seq<Row>): (kept: seq<Row>)
    ensures forall r :: r in kept <==> r in rows && Kept(rows, r)
    ensures |kept| <= |rows|
  {
    assert rows[..|rows|] == rows;
    KeptAmong(rows, |rows|)
  }

  lemma KeptAmongAscending(rows: seq<Row>, n: nat)
    requires Ascending(rows) && n <= |rows|
    ensures Ascending(KeptAmong(rows, n))
  {
    if 0 < n {
      KeptAmongAscending(rows, n - 1);
      var before := KeptAmong(rows, n - 1);
      forall k | 0 <= k < |before|
        ensures before[k].seqNo < rows[n - 1].seqNo
      {
        assert before[k] in rows[..n - 1];
      }
    }
  }

  lemma ProjectAscending(rows: seq<Row>)
    requires Ascending(rows)
    ensures Ascending(Project(rows))
  {
    KeptAmongAscending(rows, |rows|);
  }

  lemma {:induction false} KeptAmongAll(rows: seq<Row>, n: nat)
    requires n <= |rows| && forall i :: 0 <= i < |rows| ==> Kept(rows, rows[i])
    ensures KeptAmong(rows, n) == rows[..n]
  {
    if 0 < n {
      KeptAmongAll(rows, n - 1);
      assert Kept(rows, rows[n - 1]);
      assert rows[..n] == rows[..n - 1] + [rows[n - 1]];
    }
  }

  /** Projecting a projected window changes nothing. */
  lemma ProjectIdempotent(rows: seq<Row>)
    ensures Project(Project(rows)) == Project(rows)
  {
    var once := Project(rows);
    forall r | r in once
      ensures Kept(once, r)
    {
    }
    KeptAmongAll(once, |once|);
  }

  /** What the projection shows of one conversation request: every terminal; no
      provisional once completed; exactly the latest provisional while open. */
  lemma ProjectionOfRequest(rows: seq<Row>, request: Row)
    requires WellFormed(rows) && request in rows && request.kind == Request && !HousekeepingWord(request.word)
    ensures request in Project(rows) <==> request.parent !in HousekeepingIds(rows)
    ensures forall r :: r in rows && r.kind == Response && r.terminal && r.parent == request.id ==> r in Project(rows)
    ensures request.id in CompletedIds(rows) ==>
              forall r :: r in Project(rows) && r.parent == request.id ==> !IsProvisional(r)
    ensures request.id !in CompletedIds(rows) ==>
              forall r :: r in rows && IsProvisional(r) && r.parent == request.id ==>
                (r in Project(rows) <==> IsLatestProvisional(rows, r))
  {
    var i :| 0 <= i < |rows| && rows[i] == request;
    assert request.id !in HousekeepingIds(rows);
    forall r | r in rows && r.kind == Response
      ensures r.id !in HousekeepingIds(rows)
    {
      var j :| 0 <= j < |rows| && rows[j] == r;
    }
  }

  /** An open request with any provisional answer shows one. */
  lemma LatestProvisionalExists(rows: seq<Row>, parent: string) returns (latest: Row)
    requires exists r :: r in rows && IsProvisional(r) && r.parent == parent
    ensures latest in rows && IsProvisional(latest) && latest.parent == parent && IsLatestProvisional(rows, latest)
  {
    var last := |rows| - 1;
    var rest := rows[..last];
    assert forall r :: r in rows <==> r in rest || r == rows[last];
    if exists r :: r in rest && IsProvisional(r) && r.parent == parent {
      latest := LatestProvisionalExists(rest, parent);
      if IsProvisional(rows[last]) && rows[last].parent == parent && latest.seqNo < rows[last].seqNo {
        latest := rows[last];
      }
    } else {
      latest := rows[last];
    }
  }

  datatype Window = Window(rows: seq<Row>, headSeq: int, oldestSeq: int, newestSeq: int, hasOlder: bool)

  /** The window over exactly these raw rows. */
  function WindowOver(rows: seq<Row>, head: int, hasOlder: bool): Window {
    var shown := Project(rows);
    Window(shown, head,
           if rows == [] then 0 else rows[0].seqNo,
           if shown == [] then 0 else shown[|shown| - 1].seqNo,
           hasOlder)
  }

  /** The newest provisional sequence per answered request. */
  ghost predicate IsLatestMap(rows: seq<Row>, latest: map<string, int>) {
    && (forall r :: r in rows && IsProvisional(r) && r.parent != "" ==> r.parent in latest)
    && (forall p :: p in latest ==>
          p != "" && exists r :: r in rows && IsProvisional(r) && r.parent == p && r.seqNo == latest[p])
    && (forall r :: r in rows && IsProvisional(r) && r.parent in latest ==> r.seqNo <= latest[r.parent])
  }

  lemma LatestMapExtends(rows: seq<Row>, row: Row, latest: map<string, int>)
    requires IsLatestMap(rows, latest) && 0 < row.seqNo
    ensures var newest := if row.parent in latest then latest[row.parent] else 0;
            IsLatestMap(rows + [row],
                        if IsProvisional(row) && row.parent != "" && newest < row.seqNo
                        then latest[row.parent := row.seqNo] else latest)
  {
    var newest := if row.parent in latest then latest[row.parent] else 0;
    var next := if IsProvisional(row) && row.parent != "" && newest < row.seqNo
                then latest[row.parent := row.seqNo] else latest;
    assert row in rows + [row];
    forall p | p in next
      ensures p != "" && exists r :: r in rows + [row] && IsProvisional(r) && r.parent == p && r.seqNo == next[p]
    {
      if next[p] != row.seqNo || p != row.parent {
        var r :| r in rows && IsProvisional(r) && r.parent == p && r.seqNo == latest[p];
        assert r in rows + [row];
      }
    }
  }

  lemma LatestMapDecides(rows: seq<Row>, latest: map<string, int>, row: Row)
    requires Ascending(rows) && IsLatestMap(rows, latest) && row in rows && IsProvisional(row)
    ensures (if row.parent in latest then latest[row.parent] else 0) == row.seqNo
            <==> row.parent != "" && IsLatestProvisional(rows, row)
  {
  }

  lemma CompletedIdsExtend(rows: seq<Row>, row: Row)
    ensures CompletedIds(rows + [row]) ==
            CompletedIds(rows) + if row.kind == Response && row.parent != "" && row.terminal then {row.parent} else {}
  {
    assert row in rows + [row];
    assert forall r :: r in rows ==> r in rows + [row];
  }

  /** One answer folded into the two tables. */
  function WithAnswer(completed: set<string>, latest: map<string, int>, row: Row): (set<string>, map<string, int>) {
    if row.kind != Response || row.parent == "" then (completed, latest)
    else if row.terminal then (completed + {row.parent}, latest)
    else if row.seqNo > (if row.parent in latest then latest[row.parent] else 0)
    then (completed, latest[row.parent := row.seqNo])
    else (completed, latest)
  }

  lemma WithAnswerExtends(rows: seq<Row>, row: Row, latest: map<string, int>)
    requires IsLatestMap(rows, latest) && 0 < row.seqNo
    ensures var (completed, newer) := WithAnswer(CompletedIds(rows), latest, row);
            completed == CompletedIds(rows + [row]) && IsLatestMap(rows + [row], newer)
  {
    CompletedIdsExtend(rows, row);
    LatestMapExtends(rows, row, latest);
  }

  method CollectAnswers(rows: seq<Row>)
    returns (terminalParents: set<string>, latest: map<string, int>)
    requires Ascending(rows)
    ensures terminalParents == CompletedIds(rows)
    ensures IsLatestMap(rows, latest)
  {
    terminalParents, latest := {}, map[];
    for i := 0 to |rows|
      invariant terminalParents == CompletedIds(rows[..i])
      invariant IsLatestMap(rows[..i], latest)
    {
      var row := rows[i];
      assert rows[..i + 1] == rows[..i] + [row];
      WithAnswerExtends(rows[..i], row, latest);
      if row.kind != Response || row.parent == "" {
        continue;
      }
      if row.terminal {
        terminalParents := terminalParents + {row.parent};
      } else if row.seqNo > (if row.parent in latest then latest[row.parent] else 0) {
        latest := latest[row.parent := row.seqNo];
      }
    }
    assert rows[..|rows|] == rows;
  }

  method CollectHousekeeping(rows: seq<Row>) returns (housekeeping: set<string>)
    ensures housekeeping == HousekeepingIds(rows)
  {
    housekeeping := {};
    for i := 0 to |rows|
      invariant housekeeping == HousekeepingIds(rows[..i])
    {
      assert rows[..i + 1] == rows[..i] + [rows[i]];
      if rows[i].kind == Request && HousekeepingWord(rows[i].word) {
        housekeeping := housekeeping + {rows[i].id};
      }
    }
    assert rows[..|rows|] == rows;
  }

  method IncludeRow(rows: seq<Row>, row: Row, housekeeping: set<string>,
                    terminalParents: set<string>, latest: map<string, int>)
    returns (shown: bool)
    requires Ascending(rows) && row in rows
    requires housekeeping == HousekeepingIds(rows)
    requires terminalParents == CompletedIds(rows) && IsLatestMap(rows, latest)
    ensures shown <==> Kept(rows, row)
  {
    if row.id in housekeeping || row.parent in housekeeping {
      return false;
    }
    shown := row.kind != Response || row.terminal;
    if row.kind == Response && !row.terminal && row.parent !in terminalParents {
      LatestMapDecides(rows, latest, row);
      shown := (if row.parent in latest then latest[row.parent] else 0) == row.seqNo;
    }
  }

  method ProjectRows(rows: seq<Row>) returns (projected: seq<Row>)
    requires Ascending(rows)
    ensures projected == Project(rows)
  {
    var housekeeping := CollectHousekeeping(rows);
    var terminalParents, latest := CollectAnswers(rows);
    projected := [];
    for i := 0 to |rows|
      invariant projected == KeptAmong(rows, i)
    {
      var shown := IncludeRow(rows, rows[i], housekeeping, terminalParents, latest);
      if shown {
        projected := projected + [rows[i]];
      }
    }
  }

  method ProjectHistoryWindow(raw: seq<Row>, boundary: int, head: int, hasOlder: bool) returns (window: Window)
    requires Ascending(raw)
    ensures window == WindowOver(if 0 <= boundary <= |raw| then raw[boundary..] else raw, head, hasOlder)
  {
    var start := if boundary < 0 || boundary > |raw| then 0 else boundary;
    var rows := raw[start..];
    assert start == 0 ==> rows == raw;
    var projected := ProjectRows(rows);
    window := Window(projected, head, 0, 0, hasOlder);
    if |rows| > 0 {
      window := window.(oldestSeq := rows[0].seqNo);
    }
    if |projected| > 0 {
      window := window.(newestSeq := projected[|projected| - 1].seqNo);
    }
  }
}
