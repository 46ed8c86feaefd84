/** What a row no frame can carry costs: it ends the chain of history pages, and
    everything at or below the page that met it stays undelivered. */
module HistoryLoss {
  import opened Options
  import opened Ledger
  import opened History
  import opened HistoryPaging
  import opened HistoryChain

  lemma {:induction false} CutRowTransports(rows: seq<Row>, n: nat, byteLimit: nat, bytes: nat, i: nat)
    requires n <= |rows| && CutStart(rows, n, byteLimit, bytes).Some?
    requires CutStart(rows, n, byteLimit, bytes).value.0 <= i < n
    ensures rows[i].wire.Some?
    decreases n
  {
    if i < n - 1 {
      CutRowTransports(rows, n - 1, byteLimit, bytes + rows[n - 1].wire.value, i);
    }
  }

  /** Every row on a page has an envelope. */
  ghost predicate AllTransport(page: Page) {
    page.Page? ==> forall i :: 0 <= i < |page.rows| ==> page.rows[i].wire.Some?
  }

  lemma PageTransports(window: Window, query: PageQuery)
    ensures AllTransport(PageFrom(window, query))
  {
    var rows := window.rows[if |window.rows| > query.limit then |window.rows| - query.limit else 0..];
    var cut := CutStart(rows, |rows|, query.byteLimit, 0);
    if cut.Some? {
      var start := cut.value.0;
      forall i | 0 <= i < |rows| - start
        ensures rows[start..][i].wire.Some?
      {
        CutRowTransports(rows, |rows|, query.byteLimit, 0, start + i);
      }
    }
  }

  ghost predicate Transports(serve: (int, nat) -> Page) {
    forall b, t :: AllTransport(serve(b, t))
  }

  lemma ServingTransportsWhatItShows(view: View, ask: nat -> PageQuery)
    ensures Transports(Serving(view, ask))
  {
    forall before, turn
      ensures AllTransport(Serving(view, ask)(before, turn))
    {
      var q := ask(turn);
      PageTransports(WindowFor(view, WindowQuery(before, q.limit, q.minimumRoots)), q);
    }
  }

  lemma {:induction false} DeliveredTransports(view: View, before: int, serve: (int, nat) -> Page, turn: nat, row: Row)
    requires Faithful(view, serve) && Transports(serve) && row in Delivered(Chain(view, before, serve, turn))
    ensures row.wire.Some?
    decreases view.Reach(before)
  {
    var page, pages := serve(before, turn), Chain(view, before, serve, turn);
    assert AllTransport(page);
    assert pages[0] == page;
    if page.Page? && row !in page.rows {
      assert row in Delivered(pages[1..]);
      if page.hasOlder {
        assert pages[1..] == Chain(view, page.nextBefore, serve, turn + 1);
        DeliveredTransports(view, page.nextBefore, serve, turn + 1, row);
      }
    }
  }

  lemma {:induction false} ErrorComesLast(view: View, before: int, pages: seq<Page>)
    requires Follows(view, before, pages) && !NoError(pages)
    ensures pages[|pages| - 1].UntransportableRow?
    decreases |pages|
  {
    if pages[0].Page? {
      var rest := pages[1..];
      assert rest != [];
      ErrorComesLast(view, pages[0].nextBefore, pages[1..]);
    }
  }

  /** The paging law on every ledger: a lasting row below the cursor is delivered exactly
      once if and only if it lies at or above the chain's floor, and otherwise never. */
  lemma DeliveredIffAboveFloor(view: View, before: int, ask: nat -> PageQuery, i: nat)
    requires view.Sound() && forall k :: ask(k).Positive()
    requires i < view.Reach(before) && Lasting(view.visible, view.visible[i])
    ensures Faithful(view, Serving(view, ask))
    ensures var pages := Chain(view, before, Serving(view, ask), 0);
            multiset(Delivered(pages))[view.visible[i]] == if Floor(view, before, pages) <= i then 1 else 0
  {
    ServingIsFaithful(view, ask);
    var pages := Chain(view, before, Serving(view, ask), 0);
    ChainFollows(view, before, Serving(view, ask), 0);
    RunCovers(view, before, pages);
    CoveredIff(view.visible, Floor(view, before, pages), view.Reach(before), Delivered(pages), i);
  }

  lemma CoveredIff(rows: seq<Row>, lo: nat, hi: nat, shown: seq<Row>, i: nat)
    requires WellFormed(rows) && lo <= hi <= |rows| && Covers(rows, lo, hi, shown)
    requires i < hi && Lasting(rows, rows[i])
    ensures multiset(shown)[rows[i]] == if lo <= i then 1 else 0
  {
    if lo <= i {
      assert rows[lo..hi][i - lo] == rows[i];
      AscendingOnce(shown, rows[i]);
    } else if rows[i] in shown {
      var k := IndexIn(rows, lo, hi, rows[i]);
    }
  }

  lemma UntransportableIsBelowFloor(view: View, before: int, ask: nat -> PageQuery, i: nat)
    requires view.Sound() && forall k :: ask(k).Positive()
    requires i < view.Reach(before) && Lasting(view.visible, view.visible[i]) && view.visible[i].wire.None?
    ensures Faithful(view, Serving(view, ask)) && i < Floor(view, before, Chain(view, before, Serving(view, ask), 0))
  {
    DeliveredIffAboveFloor(view, before, ask, i);
    ServingTransportsWhatItShows(view, ask);
    if view.visible[i] in Delivered(Chain(view, before, Serving(view, ask), 0)) {
      DeliveredTransports(view, before, Serving(view, ask), 0, view.visible[i]);
    }
  }

  /** A lasting row below the cursor that no frame can carry always ends the chain in the
      error page, for every positive choice of limits, and the floor lies above it. */
  lemma UntransportableStops(view: View, before: int, ask: nat -> PageQuery, i: nat)
    requires view.Sound() && forall k :: ask(k).Positive()
    requires i < view.Reach(before) && Lasting(view.visible, view.visible[i]) && view.visible[i].wire.None?
    ensures Faithful(view, Serving(view, ask))
    ensures var pages := Chain(view, before, Serving(view, ask), 0);
            pages != [] && pages[|pages| - 1].UntransportableRow? && i < Floor(view, before, pages)
  {
    UntransportableIsBelowFloor(view, before, ask, i);
    var pages := Chain(view, before, Serving(view, ask), 0);
    ChainFollows(view, before, Serving(view, ask), 0);
    if NoError(pages) { NoFloorWithoutError(view, before, pages); }
    ErrorComesLast(view, before, pages);
  }

  lemma {:induction false} CutHasCause(rows: seq<Row>, n: nat, byteLimit: nat, bytes: nat) returns (i: nat)
    requires n <= |rows| && CutStart(rows, n, byteLimit, bytes).None?
    ensures i < n && rows[i].wire.None?
    decreases n
  {
    i := n - 1;
    if rows[i].wire.Some? {
      i := CutHasCause(rows, n - 1, byteLimit, bytes + rows[i].wire.value);
    }
  }

  lemma PageHasCause(window: Window, query: PageQuery) returns (row: Row)
    requires PageFrom(window, query).UntransportableRow?
    ensures row in window.rows && row.wire.None?
  {
    var rows := window.rows[if |window.rows| > query.limit then |window.rows| - query.limit else 0..];
    var i := CutHasCause(rows, |rows|, query.byteLimit, 0);
    row := rows[i];
  }

  /** A provisional shown in a window has no newer answer there. */
  lemma ShownIsNewest(rows: seq<Row>, w: nat, hi: nat, i: nat, k: nat)
    requires WellFormed(rows) && w <= i < k < hi <= |rows| && rows[i] in Project(rows[w..hi]) && IsProvisional(rows[i])
    ensures !(rows[k].kind == Response && rows[k].parent == rows[i].parent)
  {
    assert rows[w..hi][k - w] == rows[k];
    assert rows[k] in rows[w..hi];
  }

  /** The error always has a row no frame can carry, and a provisional causes it only where
      the page's cursor cuts off every newer answer to its request. */
  lemma ErrorHasCause(view: View, before: int, query: PageQuery) returns (i: nat)
    requires view.Sound() && HistoryPage(view, before, query).UntransportableRow?
    ensures i < view.Reach(before) && view.visible[i].wire.None?
    ensures IsProvisional(view.visible[i]) ==> forall k :: i < k < view.Reach(before) ==>
              !(view.visible[k].kind == Response && view.visible[k].parent == view.visible[i].parent)
  {
    var q := WindowQuery(before, query.limit, query.minimumRoots);
    var rows, hi := view.visible, view.Reach(before);
    var w := WindowStart(rows, hi, hi, TargetRows(q), MinimumRoots(q));
    var row := PageHasCause(WindowFor(view, q), query);
    assert row in Project(rows[w..hi]);
    i := IndexIn(rows, w, hi, row);
    if IsProvisional(row) {
      forall k | i < k < hi
        ensures !(rows[k].kind == Response && rows[k].parent == row.parent)
      {
        ShownIsNewest(rows, w, hi, i, k);
      }
    }
  }

  // ----------------------------------------------------------------- example

  function Root(seqNo: int, id: string, wire: Option<nat>): Row { Row(seqNo, Request, id, "", "chat", false, 0, wire) }

  /** Two root turns, the older of which cannot be carried. */
  function Blocked(bytes: nat): View { View([Root(1, "bad", None), Root(2, "good", Some(bytes))], 2) }

  lemma BlockedIsSound(bytes: nat)
    ensures Blocked(bytes).Sound() && Blocked(bytes).Reach(0) == 2
    ensures IsRoot(Blocked(bytes).visible[0]) && IsRoot(Blocked(bytes).visible[1])
  {
    var rows := Blocked(bytes).visible;
    CountBelowIs(rows, 3, 2);
    assert !("system." <= "chat") by { assert "system."[0] != "chat"[0]; }
  }

  lemma NothingComplete(rows: seq<Row>, b: nat)
    requires b <= |rows| && forall i :: 0 <= i < |rows| ==> !rows[i].terminal
    ensures CompleteCount(rows, b) == 0
    decreases |rows| - b
  {
    if b < |rows| {
      NothingComplete(rows, b + 1);
      assert TerminalParents(rows) == {};
    }
  }

  lemma BlockedWindow(bytes: nat, query: WindowQuery)
    requires query.beforeSeq == 0
    ensures WindowFor(Blocked(bytes), query).rows == Blocked(bytes).visible
  {
    var view := Blocked(bytes);
    var rows := view.visible;
    BlockedIsSound(bytes);
    assert PageStart(rows, 2) == 0;
    assert rows[0..2] == rows;
    NothingCompleteHere(rows, TargetRows(query), MinimumRoots(query));
    assert WindowStart(rows, 2, 2, TargetRows(query), MinimumRoots(query)) == 0;
    EverythingKept(rows);
  }

  lemma NothingCompleteHere(rows: seq<Row>, target: int, minimumRoots: int)
    requires (forall i :: 0 <= i < |rows| ==> !rows[i].terminal) && 0 < minimumRoots && rows != [] && IsRoot(rows[0])
    ensures Boundary(rows, target, minimumRoots, true) == (0, true)
  {
    var cut := LatestGoodCut(rows, |rows|, target, minimumRoots);
    if cut.Some? { NothingComplete(rows, cut.value); }
    assert rows[0] in rows;
  }

  lemma EverythingKept(rows: seq<Row>)
    requires forall i :: 0 <= i < |rows| ==> IsRoot(rows[i])
    ensures Project(rows) == rows
  {
    assert HousekeepingIds(rows) == {};
    KeptAmongAll(rows, |rows|);
    assert rows[..|rows|] == rows;
  }

  /** With any row limit above one the good newer turn is lost with the bad one: the first
      page is already the error, and nothing at all is delivered. */
  lemma GoodRowIsLostToo(bytes: nat, query: PageQuery)
    requires query.Positive() && 2 <= query.limit
    ensures var view := Blocked(bytes);
            && view.Sound() && view.visible[1].wire.Some? && IsRoot(view.visible[1])
            && HistoryPage(view, 0, query) == UntransportableRow
  {
    var view := Blocked(bytes);
    BlockedIsSound(bytes);
    BlockedWindow(bytes, WindowQuery(0, query.limit, query.minimumRoots));
    var rows := view.visible;
    assert rows[0..] == rows;
    assert CutStart(rows, 1, query.byteLimit, bytes) == None;
    assert CutStart(rows, 2, query.byteLimit, 0) == None;
  }

  // ------------------------------------------------------ superseded answers

  function Answer(seqNo: int, id: string, wire: Option<nat>): Row { Row(seqNo, Response, id, "ask", "", false, 0, wire) }

  /** A root turn and two provisional answers, the older of which cannot be carried. */
  function Superseded(): View {
    View([Root(1, "ask", Some(1)), Answer(2, "first", None), Answer(3, "second", Some(1))], 3)
  }

  lemma SupersededIsSound()
    ensures Superseded().Sound() && IsRoot(Superseded().visible[0])
  {
    assert !("system." <= "chat") by { assert "system."[0] != "chat"[0]; }
  }

  lemma SupersededReach()
    ensures Superseded().Reach(0) == 3 && Superseded().Reach(3) == 2
  {
    SupersededIsSound();
    CountBelowIs(Superseded().visible, 4, 3);
    CountBelowIs(Superseded().visible, 3, 2);
  }

  /** An open turn at the start of a short ledger is shown from its first row. */
  lemma OpenTurnWindow(rows: seq<Row>, hi: nat, target: int, minimumRoots: int)
    requires 0 < hi <= |rows| && PageStart(rows, hi) == 0 && IsRoot(rows[0]) && 0 < target && 0 < minimumRoots
    requires forall i :: 0 <= i < |rows| ==> !rows[i].terminal
    ensures WindowStart(rows, hi, hi, target, minimumRoots) == 0
  {
    NothingCompleteHere(rows[0..hi], target, minimumRoots);
  }

  lemma SupersededWindow(query: WindowQuery)
    requires query.beforeSeq == 0
    ensures WindowFor(Superseded(), query) == WindowOver(Superseded().visible, 3, false)
  {
    var rows := Superseded().visible;
    SupersededIsSound();
    SupersededReach();
    assert PageStart(rows, 3) == 0;
    OpenTurnWindow(rows, 3, TargetRows(query), MinimumRoots(query));
    assert rows[0..3] == rows;
  }

  lemma OlderWindow(query: WindowQuery)
    requires query.beforeSeq == 3
    ensures WindowFor(Superseded(), query).rows == Project(Superseded().visible[..2])
  {
    var rows := Superseded().visible;
    SupersededIsSound();
    SupersededReach();
    assert PageStart(rows, 2) == 0;
    OpenTurnWindow(rows, 2, TargetRows(query), MinimumRoots(query));
    assert rows[0..2] == rows[..2];
  }

  /** Of an open turn with two answers the newer is shown, and of one with one that one. */
  lemma NewestShown(ask: Row, first: Row, second: Row)
    requires IsRoot(ask) && ask.id != "" && IsProvisional(first) && IsProvisional(second)
    requires first.parent == ask.id && second.parent == ask.id && first.seqNo < second.seqNo
    ensures Project([ask, first, second]) == [ask, second] && !Kept([ask, first, second], first)
  {
    var rows := [ask, first, second];
    assert HousekeepingIds(rows) == {} && CompletedIds(rows) == {};
    assert second in rows;
    assert Kept(rows, ask) && !Kept(rows, first) && Kept(rows, second);
    assert KeptAmong(rows, 1) == [ask];
    assert KeptAmong(rows, 2) == [ask];
  }

  lemma OneShown(ask: Row, first: Row)
    requires IsRoot(ask) && ask.id != "" && IsProvisional(first) && first.parent == ask.id
    ensures Project([ask, first]) == [ask, first]
  {
    var rows := [ask, first];
    assert HousekeepingIds(rows) == {} && CompletedIds(rows) == {};
    KeptAmongAll(rows, 2);
  }

  lemma SupersededShown()
    ensures var rows := Superseded().visible;
            && Project(rows) == [rows[0], rows[2]] && Project(rows[..2]) == [rows[0], rows[1]]
            && !Lasting(rows, rows[1])
  {
    var rows := Superseded().visible;
    SupersededIsSound();
    NewestShown(rows[0], rows[1], rows[2]);
    OneShown(rows[0], rows[1]);
    assert rows[..2] == [rows[0], rows[1]];
  }

  lemma TwoRowPage(window: Window, query: PageQuery, a: Row, c: Row)
    requires query.Positive() && window.rows == [a, c] && a.wire == Some(1) && c.wire == Some(1)
    requires window.oldestSeq == a.seqNo < c.seqNo && !window.hasOlder
    ensures query.limit == 1 ==> PageFrom(window, query) == Page([c], 1, c.seqNo, true)
    ensures 2 <= query.limit && 2 <= query.byteLimit ==> PageFrom(window, query) == Page([a, c], 2, a.seqNo, false)
  {
    var rows := window.rows;
    if query.limit == 1 {
      assert rows[1..] == [c];
      assert CutStart([c], 1, query.byteLimit, 0) == CutStart([c], 0, query.byteLimit, 1);
      assert [c][0..] == [c];
    } else if 2 <= query.byteLimit {
      assert rows[0..] == rows;
      assert CutStart(rows, 2, query.byteLimit, 0) == CutStart(rows, 1, query.byteLimit, 1) == CutStart(rows, 0, query.byteLimit, 2);
    }
  }

  lemma NewestBlocks(window: Window, query: PageQuery)
    requires query.Positive() && window.rows != [] && window.rows[|window.rows| - 1].wire.None?
    ensures PageFrom(window, query) == UntransportableRow
  {
    var rows := window.rows[if |window.rows| > query.limit then |window.rows| - query.limit else 0..];
    assert rows[|rows| - 1].wire.None?;
  }

  /** A provisional that cannot be carried and is superseded stops the walk exactly where a
      page ends between it and the newer answer: here with one row a page, not with two. */
  lemma SupersededDependsOnLimits(query: PageQuery)
    requires query.Positive()
    ensures var view := Superseded();
            && view.Sound() && !Lasting(view.visible, view.visible[1])
            && (query.limit == 1 ==>
                  && HistoryPage(view, 0, query) == Page([view.visible[2]], 1, 3, true)
                  && HistoryPage(view, 3, query) == UntransportableRow)
            && (2 <= query.limit && 2 <= query.byteLimit ==>
                  HistoryPage(view, 0, query) == Page([view.visible[0], view.visible[2]], 2, 1, false))
  {
    var view := Superseded();
    SupersededIsSound();
    SupersededShown();
    var newer, older := WindowQuery(0, query.limit, query.minimumRoots), WindowQuery(3, query.limit, query.minimumRoots);
    SupersededWindow(newer);
    OlderWindow(older);
    TwoRowPage(WindowFor(view, newer), query, view.visible[0], view.visible[2]);
    NewestBlocks(WindowFor(view, older), query);
  }
}
