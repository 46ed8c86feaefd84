/** Following NextBeforeSeq from page to page covers the ledger exactly once. */
module HistoryChain {
  import opened Ledger
  import opened History
  import opened HistoryPaging

  /** A row the projection of the whole ledger keeps: not a housekeeping request nor the
      child of one, and a provisional only while its request is open and it is the newest. */
  predicate Lasting(rows: seq<Row>, row: Row) { Kept(rows, row) }

  /** It lasts exactly when every window that holds it keeps it. */
  lemma LastingIff(rows: seq<Row>, i: nat)
    requires WellFormed(rows) && i < |rows|
    ensures Lasting(rows, rows[i]) <==> forall w: nat, hi: nat :: w <= i < hi <= |rows| ==> rows[i] in Project(rows[w..hi])
  {
    if Lasting(rows, rows[i]) {
      forall w: nat, hi: nat | w <= i < hi <= |rows|
        ensures rows[i] in Project(rows[w..hi])
      {
        WindowCovers(rows, w, hi);
        assert rows[w..hi][i - w] == rows[i];
      }
    } else {
      assert rows[0..|rows|] == rows;
    }
  }

  /** Root turns last, and so does every terminal answering a conversation request. */
  lemma RootsAndTerminalsLast(rows: seq<Row>, row: Row, request: Row)
    requires WellFormed(rows) && row in rows && request in rows
    requires IsRoot(row) || (row.kind == Response && row.terminal && row.parent == request.id &&
                             request.kind == Request && !HousekeepingWord(request.word))
    ensures Lasting(rows, row)
  {
    var i :| 0 <= i < |rows| && rows[i] == row;
    var j :| 0 <= j < |rows| && rows[j] == request;
  }

  /** The index the page reaches down to. */
  function LowIndex(view: View, page: Page): (m: nat)
    requires page.Page?
    ensures m <= |view.visible|
  {
    if page.hasOlder then view.Reach(page.nextBefore) else 0
  }

  ghost predicate Covers(rows: seq<Row>, lo: nat, hi: nat, shown: seq<Row>)
    requires lo <= hi <= |rows|
  {
    && Ascending(shown)
    && (forall r :: r in shown ==> r in rows[lo..hi] && !HousekeepingRequest(r))
    && (forall r :: r in rows[lo..hi] && Lasting(rows, r) ==> r in shown)
  }

  lemma KeptInPart(rows: seq<Row>, part: seq<Row>, row: Row)
    requires (forall r :: r in part ==> r in rows) && Kept(rows, row)
    ensures Kept(part, row)
  {
    assert HousekeepingIds(part) <= HousekeepingIds(rows) && CompletedIds(part) <= CompletedIds(rows);
  }

  lemma WindowCovers(rows: seq<Row>, w: nat, hi: nat)
    requires WellFormed(rows) && w <= hi <= |rows|
    ensures Covers(rows, w, hi, Project(rows[w..hi]))
  {
    SliceWellFormed(rows, w, hi);
    var part := rows[w..hi];
    ProjectAscending(part);
    forall r | r in part && Lasting(rows, r)
      ensures r in Project(part)
    {
      KeptInPart(rows, part, r);
    }
  }

  lemma IndexIn(rows: seq<Row>, lo: nat, hi: nat, row: Row) returns (i: nat)
    requires lo <= hi <= |rows| && row in rows[lo..hi]
    ensures lo <= i < hi && rows[i] == row
  {
    var j :| 0 <= j < hi - lo && rows[lo..hi][j] == row;
    i := lo + j;
  }

  /** Dropping the older rows of a projection leaves the projection's cover of
      everything from the first row kept. */
  lemma SuffixCovers(rows: seq<Row>, w: nat, hi: nat, shown: seq<Row>, k: nat) returns (m: nat)
    requires WellFormed(rows) && w <= hi <= |rows| && Covers(rows, w, hi, shown) && 0 < k < |shown|
    ensures w < m < hi && rows[m] == shown[k] && Covers(rows, m, hi, shown[k..])
  {
    m := IndexIn(rows, w, hi, shown[k]);
    var older := IndexIn(rows, w, hi, shown[0]);
    assert shown[0].seqNo < shown[k].seqNo;
    forall r | r in shown[k..]
      ensures r in rows[m..hi]
    {
      var i :| k <= i < |shown| && shown[i] == r;
      assert r in rows[w..hi];
      var j := IndexIn(rows, w, hi, r);
      assert j >= m;
      assert rows[m..hi][j - m] == r;
    }
    forall r | r in rows[m..hi] && Lasting(rows, r)
      ensures r in shown[k..]
    {
      var j := IndexIn(rows, m, hi, r);
      assert rows[w..hi][j - w] == r;
      var i :| 0 <= i < |shown| && shown[i] == r;
      assert i >= k;
      assert shown[k..][i - k] == r;
    }
  }

  lemma PageSuffix(window: Window, query: PageQuery) returns (k: nat)
    requires query.Positive() && PageFrom(window, query).Page?
    ensures k <= |window.rows| && PageFrom(window, query).rows == window.rows[k..]
    ensures 0 < |window.rows| ==> k < |window.rows|
  {
    var skip := if |window.rows| > query.limit then |window.rows| - query.limit else 0;
    var rows := window.rows[skip..];
    var start := CutStart(rows, |rows|, query.byteLimit, 0).value.0;
    k := skip + start;
    assert rows[start..] == window.rows[k..];
  }

  /** A page below `before` reaches strictly down, its cursor names exactly where
      it stopped, and it covers everything down to there. */
  ghost predicate PageFacts(view: View, before: int, page: Page)
    requires page.Page?
  {
    var hi, m := view.Reach(before), LowIndex(view, page);
    && m <= hi
    && (page.hasOlder ==> 0 < page.nextBefore && 0 < m < hi && view.visible[m].seqNo == page.nextBefore)
    && Covers(view.visible, m, hi, page.rows)
  }

  lemma PageCovers(view: View, before: int, query: PageQuery)
    requires view.Sound() && query.Positive() && HistoryPage(view, before, query).Page?
    ensures PageFacts(view, before, HistoryPage(view, before, query))
  {
    var page := HistoryPage(view, before, query);
    var rows, hi := view.visible, view.Reach(before);
    var q := WindowQuery(before, query.limit, query.minimumRoots);
    var w := WindowStart(rows, hi, hi, TargetRows(q), MinimumRoots(q));
    var window := WindowFor(view, q);
    WindowCovers(rows, w, hi);
    var k := PageSuffix(window, query);
    if k == 0 {
      assert page.rows == window.rows;
      if 0 < w { ReachOfRow(view, w); }
    } else {
      var m := SuffixCovers(rows, w, hi, window.rows, k);
      assert rows[w..hi][0] == rows[w];
      ReachOfRow(view, m);
    }
  }

  lemma {:induction false} EncodableRowsCut(rows: seq<Row>, n: nat, byteLimit: nat, bytes: nat)
    requires n <= |rows| && forall i :: 0 <= i < n ==> rows[i].wire.Some?
    ensures CutStart(rows, n, byteLimit, bytes).Some?
  {
    if 0 < n {
      EncodableRowsCut(rows, n - 1, byteLimit, bytes + rows[n - 1].wire.value);
    }
  }

  /** How the gateway serves a client that may choose new limits for every request. */
  function Serving(view: View, ask: nat -> PageQuery): (int, nat) -> Page {
    (before: int, turn: nat) => HistoryPage(view, before, ask(turn))
  }

  ghost predicate Faithful(view: View, serve: (int, nat) -> Page) {
    forall before, turn :: serve(before, turn).Page? ==> PageFacts(view, before, serve(before, turn))
  }

  lemma ServingIsFaithful(view: View, ask: nat -> PageQuery)
    requires view.Sound() && forall i :: ask(i).Positive()
    ensures Faithful(view, Serving(view, ask))
  {
    forall before, turn | Serving(view, ask)(before, turn).Page?
      ensures PageFacts(view, before, Serving(view, ask)(before, turn))
    {
      PageCovers(view, before, ask(turn));
    }
  }

  /** The pages a client gets by following the cursor while older rows remain. */
  ghost function Chain(view: View, before: int, serve: (int, nat) -> Page, turn: nat): (pages: seq<Page>)
    requires Faithful(view, serve)
    decreases view.Reach(before)
  {
    var page := serve(before, turn);
    if page.UntransportableRow? then [page]
    else [page] + if page.hasOlder then Chain(view, page.nextBefore, serve, turn + 1) else []
  }

  /** Everything the chain delivered, oldest first. */
  function Delivered(pages: seq<Page>): seq<Row> {
    if pages == [] then []
    else Delivered(pages[1..]) + if pages[0].Page? then pages[0].rows else []
  }

  /** The index below which the chain delivered nothing: zero unless it stopped on
      a row it could not transport. */
  function Floor(view: View, before: int, pages: seq<Page>): (m: nat)
    ensures m <= |view.visible|
    decreases |pages|
  {
    if pages == [] then 0
    else if pages[0].UntransportableRow? then view.Reach(before)
    else if pages[0].hasOlder then Floor(view, pages[0].nextBefore, pages[1..])
    else 0
  }

  lemma JoinCovers(rows: seq<Row>, lo: nat, mid: nat, hi: nat, older: seq<Row>, newer: seq<Row>)
    requires WellFormed(rows) && lo <= mid <= hi <= |rows|
    requires Covers(rows, lo, mid, older) && Covers(rows, mid, hi, newer)
    ensures Covers(rows, lo, hi, older + newer)
  {
    var all := older + newer;
    assert rows[lo..hi] == rows[lo..mid] + rows[mid..hi];
    forall i, j | 0 <= i < j < |all|
      ensures all[i].seqNo < all[j].seqNo
    {
      if i < |older| <= j {
        var a := IndexIn(rows, lo, mid, older[i]);
        var b := IndexIn(rows, mid, hi, newer[j - |older|]);
      }
    }
  }

  /** A run of pages, each starting where the one before it stopped. */
  ghost predicate Follows(view: View, before: int, pages: seq<Page>)
    decreases |pages|
  {
    && 0 < |pages|
    && match pages[0]
       case UntransportableRow => |pages| == 1
       case Page(_, _, nextBefore, hasOlder) =>
         && PageFacts(view, before, pages[0])
         && if hasOlder then Follows(view, nextBefore, pages[1..]) else |pages| == 1
  }

  lemma {:induction false} ChainFollows(view: View, before: int, serve: (int, nat) -> Page, turn: nat)
    requires Faithful(view, serve)
    ensures Follows(view, before, Chain(view, before, serve, turn))
    decreases view.Reach(before)
  {
    var page := serve(before, turn);
    if page.Page? && page.hasOlder {
      ChainFollows(view, page.nextBefore, serve, turn + 1);
      assert Chain(view, before, serve, turn)[1..] == Chain(view, page.nextBefore, serve, turn + 1);
    }
  }

  /** The whole chain, for any limits: it ends; its deliveries ascend strictly, so
      no row is delivered twice; and from the floor up every lasting row is there. */
  lemma {:induction false} RunCovers(view: View, before: int, pages: seq<Page>)
    requires view.Sound() && Follows(view, before, pages)
    ensures Floor(view, before, pages) <= view.Reach(before)
    ensures Covers(view.visible, Floor(view, before, pages), view.Reach(before), Delivered(pages))
    decreases |pages|
  {
    if pages[0].Page? {
      if pages[0].hasOlder {
        RunCovers(view, pages[0].nextBefore, pages[1..]);
        JoinCovers(view.visible, Floor(view, pages[0].nextBefore, pages[1..]), view.Reach(pages[0].nextBefore),
                   view.Reach(before), Delivered(pages[1..]), pages[0].rows);
      } else {
        assert Delivered(pages[1..]) == [];
      }
    }
  }

  lemma RowsWithin(view: View, lo: nat, hi: nat, shown: seq<Row>, row: Row)
    requires view.Sound() && lo <= hi <= |view.visible| && Covers(view.visible, lo, hi, shown) && row in shown
    ensures lo < |view.visible| && view.visible[lo].seqNo <= row.seqNo
    ensures hi < |view.visible| ==> row.seqNo < view.visible[hi].seqNo
  {
    var j := IndexIn(view.visible, lo, hi, row);
  }

  /** Page ranges are disjoint and descend strictly, and the cursor never falls
      back to the head. */
  lemma {:induction false} RunDescends(view: View, before: int, pages: seq<Page>, i: nat)
    requires view.Sound() && Follows(view, before, pages) && i + 1 < |pages|
    ensures pages[i].Page? && pages[i].hasOlder && 0 < pages[i].nextBefore
    ensures forall r :: r in pages[i].rows ==> pages[i].nextBefore <= r.seqNo
    ensures pages[i + 1].Page? ==> forall r :: r in pages[i + 1].rows ==> r.seqNo < pages[i].nextBefore
    ensures pages[i + 1].Page? && pages[i + 1].hasOlder ==> pages[i + 1].nextBefore < pages[i].nextBefore
    decreases i
  {
    if i > 0 {
      RunDescends(view, pages[0].nextBefore, pages[1..], i - 1);
    } else {
      var m := LowIndex(view, pages[0]);
      forall r | r in pages[0].rows
        ensures pages[0].nextBefore <= r.seqNo
      {
        RowsWithin(view, m, view.Reach(before), pages[0].rows, r);
      }
      if pages[1].Page? {
        assert Follows(view, pages[0].nextBefore, pages[1..]);
        forall r | r in pages[1].rows
          ensures r.seqNo < pages[0].nextBefore
        {
          RowsWithin(view, LowIndex(view, pages[1]), m, pages[1].rows, r);
        }
      }
    }
  }

  lemma AscendingOnce(rows: seq<Row>, row: Row)
    requires Ascending(rows) && row in rows
    ensures multiset(rows)[row] == 1
  {
    var last := |rows| - 1;
    assert rows == rows[..last] + [rows[last]];
    if row in rows[..last] {
      AscendingOnce(rows[..last], row);
      var i :| 0 <= i < last && rows[i] == row;
    } else {
      assert row == rows[last];
    }
  }

  /** Every row has a feed envelope that fits a frame. */
  ghost predicate Transportable(rows: seq<Row>) {
    forall i :: 0 <= i < |rows| ==> rows[i].wire.Some?
  }

  lemma WindowRowIsVisible(view: View, query: WindowQuery, i: nat)
    requires i < |WindowFor(view, query).rows|
    ensures WindowFor(view, query).rows[i] in view.visible
  {
    assert WindowFor(view, query).rows[i] in WindowFor(view, query).rows;
  }

  lemma TransportableWindow(window: Window, query: PageQuery)
    requires forall i :: 0 <= i < |window.rows| ==> window.rows[i].wire.Some?
    ensures PageFrom(window, query).Page?
  {
    var rows := window.rows[if |window.rows| > query.limit then |window.rows| - query.limit else 0..];
    EncodableRowsCut(rows, |rows|, query.byteLimit, 0);
  }

  lemma TransportablePage(view: View, before: int, query: PageQuery)
    requires Transportable(view.visible)
    ensures HistoryPage(view, before, query).Page?
  {
    var q := WindowQuery(before, query.limit, query.minimumRoots);
    forall i | 0 <= i < |WindowFor(view, q).rows|
      ensures WindowFor(view, q).rows[i].wire.Some?
    {
      WindowRowIsVisible(view, q, i);
    }
    TransportableWindow(WindowFor(view, q), query);
  }

  predicate NoError(pages: seq<Page>) {
    pages == [] || (pages[0].Page? && NoError(pages[1..]))
  }

  lemma {:induction false} TransportableChain(view: View, before: int, serve: (int, nat) -> Page, turn: nat)
    requires Faithful(view, serve) && forall b, t :: serve(b, t).Page?
    ensures NoError(Chain(view, before, serve, turn))
    decreases view.Reach(before)
  {
    var page := serve(before, turn);
    if page.hasOlder {
      TransportableChain(view, page.nextBefore, serve, turn + 1);
      assert Chain(view, before, serve, turn)[1..] == Chain(view, page.nextBefore, serve, turn + 1);
    } else {
      assert Chain(view, before, serve, turn)[1..] == [];
    }
  }

  lemma {:induction false} NoFloorWithoutError(view: View, before: int, pages: seq<Page>)
    requires NoError(pages)
    ensures Floor(view, before, pages) == 0
    decreases |pages|
  {
    if pages != [] && pages[0].hasOlder {
      NoFloorWithoutError(view, pages[0].nextBefore, pages[1..]);
    }
  }

  /** The paging law: over a fixed transportable ledger, for every choice of
      positive limits, each root turn and each terminal of a conversation request
      below the starting cursor is delivered exactly once. */
  lemma DeliveredExactlyOnce(view: View, before: int, ask: nat -> PageQuery, row: Row, request: Row)
    requires view.Sound() && forall i :: ask(i).Positive()
    requires Transportable(view.visible)
    requires row in view.visible[..view.Reach(before)] && request in view.visible
    requires IsRoot(row) || (row.kind == Response && row.terminal && row.parent == request.id &&
                             request.kind == Request && !HousekeepingWord(request.word))
    ensures Faithful(view, Serving(view, ask))
    ensures multiset(Delivered(Chain(view, before, Serving(view, ask), 0)))[row] == 1
  {
    ServingIsFaithful(view, ask);
    var serve := Serving(view, ask);
    var pages := Chain(view, before, serve, 0);
    ServingTransports(view, ask);
    TransportableChain(view, before, serve, 0);
    NoFloorWithoutError(view, before, pages);
    ChainFollows(view, before, serve, 0);
    RunCovers(view, before, pages);
    RootsAndTerminalsLast(view.visible, row, request);
    AscendingOnce(Delivered(pages), row);
  }

  lemma ServingTransports(view: View, ask: nat -> PageQuery)
    requires Transportable(view.visible)
    ensures forall before, turn :: Serving(view, ask)(before, turn).Page?
  {
    forall before, turn
      ensures Serving(view, ask)(before, turn).Page?
    {
      TransportablePage(view, before, ask(turn));
    }
  }
}
