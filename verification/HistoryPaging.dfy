/** Paging: the bounded ledger view, the window read over it, the page cut from a
    window by rows and bytes, and the chain a client follows through NextBeforeSeq. */
module HistoryPaging {
  import opened Options
  import opened Ledger
  import opened History

  const SCAN_BATCH := 256
  const MAX_LEDGER_BYTES := 16777216

  /** One channel's ledger: what is visible, and the head (which may be a row
      hidden from readers). */
  datatype View = View(visible: seq<Row>, head: int) {
    ghost predicate Sound() {
      && WellFormed(visible)
      && 0 <= head
      && forall i :: 0 <= i < |visible| ==> visible[i].seqNo <= head
    }

    /** Visible rows below a cursor; a cursor of zero, or beyond the head, is the tail. */
    function Reach(before: int): (n: nat)
      ensures n <= |visible|
    {
      CountBelow(visible, if before <= 0 || before > head + 1 then head + 1 else before)
    }
  }

  /** Where a page ending at `n` starts once the payload budget is spent. */
  function FitBytes(rows: seq<Row>, low: nat, start: nat, bytes: nat): (s: nat)
    requires low <= start <= |rows|
    ensures low <= s <= start
    decreases start
  {
    if start == low then low
    else
      var next := bytes + rows[start - 1].payload;
      if next > MAX_LEDGER_BYTES then start else FitBytes(rows, low, start - 1, next)
  }

  /** The page below `n`: at most a batch of rows and the byte budget, yet never
      empty while a row remains. */
  function PageStart(rows: seq<Row>, n: nat): (s: nat)
    requires n <= |rows|
    ensures s <= n && n - s <= SCAN_BATCH
    ensures 0 < n ==> s < n
  {
    var s := FitBytes(rows, if n < SCAN_BATCH then 0 else n - SCAN_BATCH, n, 0);
    if s == n && 0 < n then n - 1 else s
  }

  method ReadVisibleBeforeSeq(view: View, before: int)
    returns (page: seq<Row>, head: int, hasOlder: bool)
    ensures var n := view.Reach(before);
            page == view.visible[PageStart(view.visible, n)..n] &&
            hasOlder == (0 < PageStart(view.visible, n))
    ensures head == view.head
  {
    var n := view.Reach(before);
    var low := if n < SCAN_BATCH then 0 else n - SCAN_BATCH;
    page, head, hasOlder := view.visible[low..n], view.head, 0 < low;
    var start := FitPage(page, view.visible, low, n);
    if start == |page| && |page| > 0 {
      start := start - 1;
    }
    if start > 0 {
      hasOlder := true;
      page := page[start..];
    }
  }

  method FitPage(page: seq<Row>, ghost rows: seq<Row>, ghost low: nat, ghost n: nat) returns (start: nat)
    requires low <= n <= |rows| && page == rows[low..n]
    ensures start <= |page| && low + start == FitBytes(rows, low, n, 0)
  {
    var bytes: nat := 0;
    start := |page|;
    while 0 < start
      invariant 0 <= start <= |page|
      invariant FitBytes(rows, low, n, 0) == FitBytes(rows, low, low + start, bytes)
    {
      var next := bytes + page[start - 1].payload;
      if next > MAX_LEDGER_BYTES {
        break;
      }
      bytes := next;
      start := start - 1;
    }
  }

  /** Where the window below `hi` starts, having already scanned down to `lo`. */
  function WindowStart(rows: seq<Row>, lo: nat, hi: nat, target: int, minimumRoots: int): (w: nat)
    requires lo <= hi <= |rows| && 0 < target && 0 < minimumRoots
    ensures w <= hi
    ensures 0 < hi ==> w < hi
    decreases lo
  {
    var p := PageStart(rows, lo);
    var (b, ready) := Boundary(rows[p..hi], target, minimumRoots, p == 0);
    ReadyBoundary(rows[p..hi], target, minimumRoots, p == 0);
    if ready then p + b else WindowStart(rows, p, hi, target, minimumRoots)
  }

  datatype WindowQuery = WindowQuery(beforeSeq: int, targetRows: int, minimumCompleteRoots: int)

  function TargetRows(query: WindowQuery): (n: int)
    ensures 0 < n
  {
    if query.targetRows <= 0 then 200 else query.targetRows
  }

  function MinimumRoots(query: WindowQuery): (n: int)
    ensures 0 < n
  {
    if query.minimumCompleteRoots <= 0 then 20 else query.minimumCompleteRoots
  }

  /** The window a query selects: the rows from its start up to the cursor. */
  function WindowFor(view: View, query: WindowQuery): Window {
    var hi := view.Reach(query.beforeSeq);
    var w := WindowStart(view.visible, hi, hi, TargetRows(query), MinimumRoots(query));
    WindowOver(view.visible[w..hi], view.head, 0 < w)
  }

  lemma ReachOfRow(view: View, m: nat)
    requires view.Sound() && m < |view.visible|
    ensures view.Reach(view.visible[m].seqNo) == m
  {
    CountBelowRow(view.visible, m);
  }

  method CloseWindow(view: View, accumulated: seq<Row>, boundary: int, head: int, hasOlder: bool, ghost p: nat, ghost hi: nat)
    returns (window: Window)
    requires view.Sound() && p <= hi <= |view.visible| && accumulated == view.visible[p..hi]
    requires 0 <= boundary <= |accumulated| && hasOlder == (0 < p)
    ensures window == WindowOver(view.visible[p + boundary..hi], head, 0 < p + boundary)
  {
    SliceWellFormed(view.visible, p, hi);
    assert accumulated[boundary..] == view.visible[p + boundary..hi];
    window := ProjectHistoryWindow(accumulated, boundary, head, hasOlder || boundary > 0);
  }

  /** One backwards batch: prepend it and ask for a boundary. */
  method ScanBatch(view: View, before: int, accumulated: seq<Row>, target: int, minimumRoots: int, ghost lo: nat, ghost hi: nat)
    returns (grown: seq<Row>, next: int, head: int, hasOlder: bool, boundary: int, ready: bool)
    requires view.Sound() && 0 < target && 0 < minimumRoots
    requires lo <= hi <= |view.visible| && lo == view.Reach(before) && accumulated == view.visible[lo..hi]
    ensures var p := PageStart(view.visible, lo);
            && grown == view.visible[p..hi]
            && view.Reach(next) == p
            && hasOlder == (0 < p)
            && (boundary, ready) == Boundary(view.visible[p..hi], target, minimumRoots, p == 0)
    ensures head == view.head
  {
    var page;
    page, head, hasOlder := ReadVisibleBeforeSeq(view, before);
    grown, next := accumulated, before;
    ghost var p := PageStart(view.visible, lo);
    if |page| > 0 {
      grown := page + accumulated;
      next := page[0].seqNo;
      ReachOfRow(view, p);
    }
    assert grown == view.visible[p..hi];
    boundary, ready := HistoryBoundary(grown, target, minimumRoots, !hasOlder);
  }

  /** Scan backwards until the boundary is ready.  It always ends: at the ledger's
      start the boundary is ready, and every other round moves down. */
  method ScanToBoundary(view: View, query: WindowQuery)
    returns (accumulated: seq<Row>, boundary: int, head: int, hasOlder: bool, ghost p: nat)
    requires view.Sound()
    ensures var hi := view.Reach(query.beforeSeq);
            && p <= hi && accumulated == view.visible[p..hi] && 0 <= boundary <= |accumulated|
            && p + boundary == WindowStart(view.visible, hi, hi, TargetRows(query), MinimumRoots(query))
    ensures hasOlder == (0 < p) && head == view.head
  {
    var target := if query.targetRows <= 0 then 200 else query.targetRows;
    var minimumRoots := if query.minimumCompleteRoots <= 0 then 20 else query.minimumCompleteRoots;
    var before := query.beforeSeq;
    accumulated, head, boundary, hasOlder := [], 0, 0, false;
    ghost var hi := view.Reach(query.beforeSeq);
    p := hi;
    var ready := false;
    while !ready
      invariant p <= hi && p == view.Reach(before) && accumulated == view.visible[p..hi]
      invariant head == 0 || head == view.head
      invariant !ready ==> WindowStart(view.visible, hi, hi, target, minimumRoots) ==
                           WindowStart(view.visible, p, hi, target, minimumRoots)
      invariant ready ==> hasOlder == (0 < p) && head == view.head && 0 <= boundary <= |accumulated| &&
                          p + boundary == WindowStart(view.visible, hi, hi, target, minimumRoots)
      decreases !ready, p
    {
      var snapshotHead;
      ghost var lo := p;
      accumulated, before, snapshotHead, hasOlder, boundary, ready :=
        ScanBatch(view, before, accumulated, target, minimumRoots, lo, hi);
      if head == 0 {
        head := snapshotHead;
      }
      p := PageStart(view.visible, lo);
      ReadyBoundary(accumulated, target, minimumRoots, p == 0);
    }
  }

  method ReadHistoryWindow(view: View, query: WindowQuery) returns (window: Window)
    requires view.Sound()
    ensures window == WindowFor(view, query)
  {
    var accumulated, boundary, head, hasOlder, p := ScanToBoundary(view, query);
    window := CloseWindow(view, accumulated, boundary, head, hasOlder, p, view.Reach(query.beforeSeq));
  }

  // -------------------------------------------------------------------- pages

  /** One history request after normalisation: positive row and byte limits. */
  datatype PageQuery = PageQuery(limit: nat, byteLimit: nat, minimumRoots: nat) {
    predicate Positive() { 0 < limit && 0 < byteLimit && 0 < minimumRoots }
  }

  /** `UntransportableRow` is the page that ends in an error frame. */
  datatype Page = Page(rows: seq<Row>, bytes: nat, nextBefore: int, hasOlder: bool) | UntransportableRow

  /** The oldest row that still fits, taking rows newest first; None when a row
      on the way cannot be encoded. */
  function CutStart(rows: seq<Row>, n: nat, byteLimit: nat, bytes: nat): (cut: Option<(nat, nat)>)
    requires n <= |rows|
    ensures cut.Some? ==> cut.value.0 <= n
    ensures cut.Some? && bytes == 0 && 0 < n ==> cut.value.0 < n
    decreases n
  {
    if n == 0 then Some((0, bytes))
    else match rows[n - 1].wire
      case None => None
      case Some(rowBytes) =>
        if bytes > 0 && bytes + rowBytes > byteLimit then Some((n, bytes))
        else CutStart(rows, n - 1, byteLimit, bytes + rowBytes)
  }

  /** The encoded bytes of rows[k..n]. */
  function WireBytes(rows: seq<Row>, k: nat, n: nat): nat
    requires n <= |rows|
    decreases n
  {
    if n <= k then 0
    else WireBytes(rows, k, n - 1) + if rows[n - 1].wire.Some? then rows[n - 1].wire.value else 0
  }

  /** The cut spends the byte limit and no less: the bytes are those of the rows
      taken; they stay within the limit unless the oldest row taken is the first
      with any bytes; and the next older row would not have fitted. */
  lemma {:induction false} CutBudget(rows: seq<Row>, n: nat, byteLimit: nat, bytes: nat)
    requires n <= |rows| && CutStart(rows, n, byteLimit, bytes).Some?
    requires bytes <= byteLimit
    ensures var (k, total) := CutStart(rows, n, byteLimit, bytes).value;
            && total == bytes + WireBytes(rows, k, n)
            && (total <= byteLimit || (k < n && bytes + WireBytes(rows, k + 1, n) == 0))
            && (0 < k ==> 0 < total && rows[k - 1].wire.Some? && byteLimit < total + rows[k - 1].wire.value)
    decreases n
  {
    if 0 < n {
      var total := bytes + rows[n - 1].wire.value;
      if total <= byteLimit {
        CutBudget(rows, n - 1, byteLimit, total);
      }
    }
  }

  /** The page cut from a window: a suffix of its rows, and the cursor below which
      the next page continues. */
  function PageFrom(window: Window, query: PageQuery): Page {
    var skip := if |window.rows| > query.limit then |window.rows| - query.limit else 0;
    var rows := window.rows[skip..];
    match CutStart(rows, |rows|, query.byteLimit, 0)
    case None => UntransportableRow
    case Some((start, bytes)) =>
      var shown := rows[start..];
      var nextBefore := if 0 < |shown| < |window.rows| then shown[0].seqNo else window.oldestSeq;
      Page(shown, bytes, nextBefore, window.hasOlder || nextBefore > window.oldestSeq)
  }

  function HistoryPage(view: View, before: int, query: PageQuery): Page {
    PageFrom(WindowFor(view, WindowQuery(before, query.limit, query.minimumRoots)), query)
  }

  method ReadHistory(view: View, before: int, query: PageQuery) returns (page: Page)
    requires view.Sound() && query.Positive()
    ensures page == HistoryPage(view, before, query)
  {
    var window := ReadHistoryWindow(view, WindowQuery(before, query.limit, query.minimumRoots));
    page := CutPage(window, query);
  }

  /** Take encodable rows newest first until the byte limit is spent. */
  method TakeNewest(rows: seq<Row>, byteLimit: nat) returns (taken: Option<(seq<Row>, nat)>)
    ensures match CutStart(rows, |rows|, byteLimit, 0)
            case None => taken == None
            case Some((start, bytes)) => taken == Some((rows[start..], bytes))
  {
    var encodedBytes: nat := 0;
    var index := |rows|;
    while index > 0
      invariant 0 <= index <= |rows|
      invariant CutStart(rows, |rows|, byteLimit, 0) == CutStart(rows, index, byteLimit, encodedBytes)
    {
      var row := rows[index - 1];
      if row.wire.None? {
        return None;
      }
      var rowBytes := row.wire.value;
      if encodedBytes > 0 && encodedBytes + rowBytes > byteLimit {
        break;
      }
      encodedBytes := encodedBytes + rowBytes;
      index := index - 1;
    }
    taken := Some((rows[index..], encodedBytes));
  }

  method CutPage(window: Window, query: PageQuery) returns (page: Page)
    ensures page == PageFrom(window, query)
  {
    var rows := window.rows[if |window.rows| > query.limit then |window.rows| - query.limit else 0..];
    var taken := TakeNewest(rows, query.byteLimit);
    if taken.None? {
      return UntransportableRow;
    }
    var encoded := taken.value.0;
    var nextBefore := window.oldestSeq;
    if |encoded| > 0 && |encoded| < |window.rows| {
      nextBefore := encoded[0].seqNo;
    }
    page := Page(encoded, taken.value.1, nextBefore, window.hasOlder || nextBefore > window.oldestSeq);
  }
}
