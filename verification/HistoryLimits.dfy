/** What a history page and its window are held to: the limits of the query, in terms of the
    page, the query and the ledger's rows alone. */
module HistoryLimits {
  import opened Options
  import opened Ledger
  import opened History
  import opened HistoryPaging

  // -------------------------------------------------------------------- pages

  /** The encoded bytes of some rows. */
  function Wire(rows: seq<Row>): nat {
    if rows == [] then 0 else (if rows[0].wire.Some? then rows[0].wire.value else 0) + Wire(rows[1..])
  }

  lemma {:induction false} WireSnoc(rows: seq<Row>, row: Row)
    ensures Wire(rows + [row]) == Wire(rows) + if row.wire.Some? then row.wire.value else 0
  {
    if rows == [] {
      assert rows + [row] == [row] && [row][1..] == [];
    } else {
      WireSnoc(rows[1..], row);
      assert (rows + [row])[1..] == rows[1..] + [row];
    }
  }

  lemma {:induction false} WireIs(rows: seq<Row>, k: nat, n: nat)
    requires k <= n <= |rows|
    ensures Wire(rows[k..n]) == WireBytes(rows, k, n)
    decreases n
  {
    if k < n {
      WireIs(rows, k, n - 1);
      WireSnoc(rows[k..n - 1], rows[n - 1]);
      assert rows[k..n] == rows[k..n - 1] + [rows[n - 1]];
    }
  }

  /** A page is the newest rows of its window, as many as both limits allow. */
  ghost predicate WithinLimits(window: seq<Row>, page: Page, query: PageQuery)
    requires page.Page?
  {
    var n := |page.rows|;
    && n <= query.limit && n <= |window| && page.rows == window[|window| - n..]
    && page.bytes == Wire(page.rows)
    && (page.bytes <= query.byteLimit || (0 < n && Wire(page.rows[1..]) == 0))
    && (n < |window| ==>
          || n == query.limit
          || (var next := window[|window| - n - 1]; next.wire.Some? && query.byteLimit < page.bytes + next.wire.value))
  }

  lemma WireTail(rows: seq<Row>, k: nat)
    requires k <= |rows|
    ensures Wire(rows[k..]) == WireBytes(rows, k, |rows|)
  {
    WireIs(rows, k, |rows|);
    assert rows[k..|rows|] == rows[k..];
  }

  /** What the byte limit leaves of some rows: those from `start` on. */
  ghost predicate ByteCut(rows: seq<Row>, byteLimit: nat, start: nat, bytes: nat) {
    && start <= |rows| && bytes == Wire(rows[start..])
    && (bytes <= byteLimit || (start < |rows| && Wire(rows[start + 1..]) == 0))
    && (0 < start ==> rows[start - 1].wire.Some? && byteLimit < bytes + rows[start - 1].wire.value)
  }

  lemma CutIsWithin(rows: seq<Row>, byteLimit: nat, start: nat, bytes: nat)
    requires CutStart(rows, |rows|, byteLimit, 0) == Some((start, bytes))
    ensures ByteCut(rows, byteLimit, start, bytes)
  {
    CutBudget(rows, |rows|, byteLimit, 0);
    WireTail(rows, start);
    if start < |rows| { WireTail(rows, start + 1); }
  }

  /** The row limit first, then the byte limit. */
  lemma CutsAreWithin(all: seq<Row>, skip: nat, start: nat, page: Page, query: PageQuery)
    requires page.Page? && skip == (if |all| > query.limit then |all| - query.limit else 0)
    requires ByteCut(all[skip..], query.byteLimit, start, page.bytes) && page.rows == all[skip..][start..]
    ensures WithinLimits(all, page, query)
  {
    var rows, n := all[skip..], |page.rows|;
    assert page.rows == all[skip + start..] && skip + start == |all| - n;
    if start < |rows| { assert page.rows[1..] == rows[start + 1..]; }
    if 0 < start { assert all[|all| - n - 1] == rows[start - 1]; }
  }

  lemma PageFromIsWithin(window: Window, query: PageQuery)
    requires query.Positive() && PageFrom(window, query).Page?
    ensures WithinLimits(window.rows, PageFrom(window, query), query)
  {
    var all, page := window.rows, PageFrom(window, query);
    var skip := if |all| > query.limit then |all| - query.limit else 0;
    var rows := all[skip..];
    var (start, bytes) := CutStart(rows, |rows|, query.byteLimit, 0).value;
    CutIsWithin(rows, query.byteLimit, start, bytes);
    CutsAreWithin(all, skip, start, page, query);
  }

  /** Every page of every ledger, whatever limits a request names: at most the row limit,
      its bytes the wire bytes of its rows, within the byte limit unless one row alone
      exceeds it, and a next older row is left out only by a limit. */
  lemma EveryPageKeepsItsLimits(view: View, before: int, query: PageQuery)
    requires view.Sound() && query.Positive() && HistoryPage(view, before, query).Page?
    ensures var window := WindowFor(view, WindowQuery(before, query.limit, query.minimumRoots));
            WithinLimits(window.rows, HistoryPage(view, before, query), query)
  {
    PageFromIsWithin(WindowFor(view, WindowQuery(before, query.limit, query.minimumRoots)), query);
  }

  // ------------------------------------------------------------------ windows

  lemma SuffixCompletes(rows: seq<Row>, b: nat, i: nat)
    requires WellFormed(rows) && b <= i < |rows|
    ensures IsCompleteRoot(rows, rows[i]) <==> IsCompleteRoot(rows[b..], rows[i])
  {
    var part := rows[b..];
    if IsCompleteRoot(rows, rows[i]) {
      var r :| r in rows && r.terminal && r.parent == rows[i].id;
      var k :| 0 <= k < |rows| && rows[k] == r;
      assert i < k;
      assert part[k - b] == r;
    }
  }

  /** A root counted complete closes after itself, so what lies before counts for nothing. */
  lemma {:induction false} SuffixCounts(rows: seq<Row>, b: nat, c: nat)
    requires WellFormed(rows) && b <= c <= |rows|
    ensures CompleteCount(rows, c) == CompleteCount(rows[b..], c - b)
    decreases |rows| - c
  {
    if c < |rows| {
      SuffixCompletes(rows, b, c);
      SuffixCounts(rows, b, c + 1);
      assert rows[b..][c - b] == rows[c];
    }
  }

  /** A window may be closed at its first row: it starts on a root, holds the target rows and
      the completed roots, and no shorter one does; a window of a log without turns holds
      exactly the target. */
  ghost predicate Closes(part: seq<Row>, target: int, minimumRoots: int) {
    || (GoodCut(part, 0, target, minimumRoots) && forall b :: 0 < b < |part| ==> !GoodCut(part, b, target, minimumRoots))
    || (!HasTurnRows(part) && |part| == target)
  }

  lemma BoundaryCloses(rows: seq<Row>, target: int, minimumRoots: int, atBeginning: bool)
    requires WellFormed(rows) && 0 < target && 0 < minimumRoots
    ensures var (b, ready) := Boundary(rows, target, minimumRoots, atBeginning);
            && 0 <= b <= |rows|
            && (ready && (0 < b || !atBeginning) ==> Closes(rows[b..], target, minimumRoots))
  {
    var (b, ready) := Boundary(rows, target, minimumRoots, atBeginning);
    ReadyBoundary(rows, target, minimumRoots, atBeginning);
    var part := rows[b..];
    if ready && (0 < b || !atBeginning) {
      if HasRoots(rows) {
        CutCloses(rows, b, target, minimumRoots);
      } else {
        assert forall r :: r in part ==> r in rows;
      }
    }
  }

  lemma CutCloses(rows: seq<Row>, b: nat, target: int, minimumRoots: int)
    requires WellFormed(rows) && b < |rows| && GoodCut(rows, b, target, minimumRoots)
    requires forall c :: b < c < |rows| ==> !GoodCut(rows, c, target, minimumRoots)
    ensures Closes(rows[b..], target, minimumRoots)
  {
    var part := rows[b..];
    SuffixCounts(rows, b, b);
    forall c | 0 < c < |part|
      ensures !GoodCut(part, c, target, minimumRoots)
    {
      SuffixCounts(rows, b, b + c);
      assert part[c] == rows[b + c];
      assert !GoodCut(rows, b + c, target, minimumRoots);
    }
  }

  lemma ReadyCloses(rows: seq<Row>, p: nat, hi: nat, target: int, minimumRoots: int)
    requires WellFormed(rows) && p <= hi <= |rows| && 0 < target && 0 < minimumRoots
    requires Boundary(rows[p..hi], target, minimumRoots, p == 0).1
    ensures var w := p + Boundary(rows[p..hi], target, minimumRoots, p == 0).0;
            p <= w <= hi && (0 < w ==> Closes(rows[w..hi], target, minimumRoots))
  {
    var b := Boundary(rows[p..hi], target, minimumRoots, p == 0).0;
    SliceWellFormed(rows, p, hi);
    BoundaryCloses(rows[p..hi], target, minimumRoots, p == 0);
    assert rows[p..hi][b..] == rows[p + b..hi];
  }

  lemma {:induction false} WindowCloses(rows: seq<Row>, lo: nat, hi: nat, target: int, minimumRoots: int)
    requires WellFormed(rows) && lo <= hi <= |rows| && 0 < target && 0 < minimumRoots
    ensures var w := WindowStart(rows, lo, hi, target, minimumRoots);
            0 < w ==> w <= hi && Closes(rows[w..hi], target, minimumRoots)
    decreases lo
  {
    var p := PageStart(rows, lo);
    if Boundary(rows[p..hi], target, minimumRoots, p == 0).1 {
      ReadyCloses(rows, p, hi, target, minimumRoots);
    } else {
      ReadyBoundary(rows[p..hi], target, minimumRoots, p == 0);
      WindowCloses(rows, p, hi, target, minimumRoots);
    }
  }

  /** Every window that does not reach the start of the ledger holds the rows and completed
      roots its query asks for, starts on a root, and is the least that does. */
  lemma EveryWindowHoldsItsTarget(view: View, query: WindowQuery)
    requires view.Sound()
    ensures var window, hi := WindowFor(view, query), view.Reach(query.beforeSeq);
            window.hasOlder ==>
              exists w :: && 0 < w <= hi && window.rows == Project(view.visible[w..hi])
                          && Closes(view.visible[w..hi], if query.targetRows <= 0 then 200 else query.targetRows,
                                    if query.minimumCompleteRoots <= 0 then 20 else query.minimumCompleteRoots)
  {
    var hi := view.Reach(query.beforeSeq);
    var w := WindowStart(view.visible, hi, hi, TargetRows(query), MinimumRoots(query));
    WindowCloses(view.visible, hi, hi, TargetRows(query), MinimumRoots(query));
    assert 0 < w ==> w <= hi && WindowFor(view, query).rows == Project(view.visible[w..hi]);
  }
}
