/** The live pump: each round reads visible rows after a channel's cursor, pushes
    them as feed frames and then publishes a checkpoint over what it scanned. */
module LivePump {
  import opened Ledger

  type Channel = string

  const MAX_LEDGER_BYTES := 16777216
  const FEED_BATCH := 100

  /** The ledger at one moment: its visible rows and its head. */
  datatype Log = Log(visible: seq<Row>, head: int)

  ghost predicate Sound(log: Log) {
    && Ascending(log.visible)
    && 0 <= log.head
    && forall i :: 0 <= i < |log.visible| ==> log.visible[i].seqNo <= log.head
  }

  /** Commits only append above the head. */
  ghost predicate Grows(a: Log, b: Log) {
    && a.head <= b.head && a.visible <= b.visible
    && forall i :: |a.visible| <= i < |b.visible| ==> a.head < b.visible[i].seqNo
  }

  /** Visible rows with a sequence in (lo, hi]. */
  function Between(rows: seq<Row>, lo: int, hi: int): seq<Row> {
    var n, m := CountBelow(rows, lo + 1), CountBelow(rows, hi + 1);
    if n <= m then rows[n..m] else []
  }

  /** What a read after `at` may return: the rows up to `scanned`, which is the head
      or the last row of a full or byte-limited page. */
  ghost predicate IsRead(log: Log, at: int, rows: seq<Row>, scanned: int) {
    var n := CountBelow(log.visible, at + 1);
    && n + |rows| <= |log.visible|
    && rows == log.visible[n..n + |rows|]
    && ((scanned == log.head && n + |rows| == |log.visible|) || (rows != [] && scanned == rows[|rows| - 1].seqNo))
  }

  function PayloadBytes(rows: seq<Row>): nat {
    if rows == [] then 0 else PayloadBytes(rows[..|rows| - 1]) + rows[|rows| - 1].payload
  }

  /** A page is the longest run of rows within the row limit and the byte budget, but
      never empty while a row remains. */
  ghost predicate Longest(rest: seq<Row>, keep: nat, limit: nat) {
    && keep <= |rest| && keep <= limit
    && (keep <= 1 || PayloadBytes(rest[..keep]) <= MAX_LEDGER_BYTES)
    && (keep == 0 ==> rest == [])
    && (keep < |rest| && keep < limit ==> PayloadBytes(rest[..keep + 1]) > MAX_LEDGER_BYTES)
  }

  lemma SliceOfSlice<T>(v: seq<T>, n: nat, m: nat, k: nat)
    requires n <= m <= |v| && n + k <= m
    ensures v[n..m][..k] == v[n..n + k]
  {
  }

  lemma LongestOfPrefix(rest: seq<Row>, rows: seq<Row>, keep: nat, limit: nat)
    requires |rows| == (if limit < |rest| then limit else |rest|) && rows == rest[..|rows|]
    requires Longest(rows, keep, |rows|) && 0 < limit
    ensures Longest(rest, keep, limit)
  {
    SliceOfSlice(rest, 0, |rows|, keep);
    if keep < |rows| { SliceOfSlice(rest, 0, |rows|, keep + 1); }
  }

  /** The store's page: the next rows up to the limit, and the head unless the limit
      was reached. */
  method StoreReadAfterSeq(log: Log, at: int, limit: nat) returns (rows: seq<Row>, scanned: int)
    requires 0 < limit
    ensures var rest := log.visible[CountBelow(log.visible, at + 1)..];
            && |rows| == (if limit < |rest| then limit else |rest|)
            && rows == rest[..|rows|]
    ensures scanned == if |rows| == limit then rows[limit - 1].seqNo else log.head
  {
    var n := CountBelow(log.visible, at + 1);
    rows := log.visible[n..if n + limit < |log.visible| then n + limit else |log.visible|];
    SliceOfSlice(log.visible, n, |log.visible|, |rows|);
    scanned := log.head;
    if |rows| == limit {
      scanned := rows[|rows| - 1].seqNo;
    }
  }

  lemma PrefixIsRead(log: Log, at: int, rows: seq<Row>, scanned: int)
    requires var rest := log.visible[CountBelow(log.visible, at + 1)..]; |rows| <= |rest| && rows == rest[..|rows|]
    requires (scanned == log.head && CountBelow(log.visible, at + 1) + |rows| == |log.visible|)
             || (rows != [] && scanned == rows[|rows| - 1].seqNo)
    ensures IsRead(log, at, rows, scanned)
  {
    SliceOfSlice(log.visible, CountBelow(log.visible, at + 1), |log.visible|, |rows|);
  }

  method ReadVisibleAfterSeq(log: Log, at: int, limit: nat) returns (rows: seq<Row>, scanned: int)
    requires 0 < limit
    ensures IsRead(log, at, rows, scanned)
    ensures Longest(log.visible[CountBelow(log.visible, at + 1)..], |rows|, limit)
  {
    rows, scanned := StoreReadAfterSeq(log, at, limit);
    ghost var rest := log.visible[CountBelow(log.visible, at + 1)..];
    var keep := KeepWithinBytes(rows);
    LongestOfPrefix(rest, rows, keep, limit);
    SliceOfSlice(rest, 0, |rows|, keep);
    if keep < |rows| {
      rows := rows[..keep];
      scanned := rows[|rows| - 1].seqNo;
    }
    PrefixIsRead(log, at, rows, scanned);
  }

  method KeepWithinBytes(rows: seq<Row>) returns (keep: nat)
    ensures Longest(rows, keep, |rows|)
  {
    var bytes: nat := 0;
    keep := 0;
    while keep < |rows|
      invariant keep <= |rows|
      invariant bytes == PayloadBytes(rows[..keep]) && (keep == 0 || bytes <= MAX_LEDGER_BYTES)
    {
      var next := bytes + rows[keep].payload;
      assert rows[..keep + 1][..keep] == rows[..keep];
      if next > MAX_LEDGER_BYTES {
        break;
      }
      bytes := next;
      keep := keep + 1;
    }
    if keep == 0 && |rows| > 0 {
      keep := 1;
    }
  }

  ghost predicate Climbs(rows: seq<Row>) {
    forall i :: 0 < i < |rows| ==> rows[i - 1].seqNo < rows[i].seqNo
  }

  lemma ReadClimbs(log: Log, at: int, rows: seq<Row>, scanned: int)
    requires Sound(log) && IsRead(log, at, rows, scanned)
    ensures Climbs(rows)
  {
  }

  // ----------------------------------------------------------------- a round

  datatype Frame = Feed(row: Row) | Checkpoint(scanLow: int, scanned: int)

  function Feeds(rows: seq<Row>): seq<Frame> {
    seq(|rows|, i requires 0 <= i < |rows| => Feed(rows[i]))
  }

  lemma FeedsExtend(before: seq<Frame>, rows: seq<Row>, n: nat)
    requires n < |rows|
    ensures before + Feeds(rows[..n + 1]) == before + Feeds(rows[..n]) + [Feed(rows[n])]
  {
    assert Feeds(rows[..n + 1]) == Feeds(rows[..n]) + [Feed(rows[n])];
  }

  function Rows(frames: seq<Frame>): seq<Row> {
    if frames == [] then []
    else Rows(frames[..|frames| - 1]) + if frames[|frames| - 1].Feed? then [frames[|frames| - 1].row] else []
  }

  /** One component of the lane's cursor: `advance` only moves it forward. */
  function Advanced(at: int, to: int): int { if to > at then to else at }

  /** A round that pushed `good` rows before a row failed to encode or the lane
      closed, and then perhaps its checkpoint. */
  function Pumped(at: int, rows: seq<Row>, scanned: int, good: nat, checkpoint: bool): (seq<Frame>, int)
    requires good <= |rows|
  {
    var fed := Feeds(rows[..good]);
    var reached := if good == 0 then at else Advanced(at, rows[good - 1].seqNo);
    if good == |rows| && checkpoint && scanned > at
    then (fed + [Checkpoint(at + 1, scanned)], Advanced(reached, scanned))
    else (fed, reached)
  }

  function Pushable(rows: seq<Row>, stopAt: nat): nat { if stopAt < |rows| then stopAt else |rows| }

  class LiveLane {
    var cursor: map<Channel, int>
    var sent: map<Channel, seq<Frame>>

    function At(ch: Channel): int
      reads this
    {
      if ch in cursor then cursor[ch] else 0
    }

    function Sent(ch: Channel): seq<Frame>
      reads this
    {
      if ch in sent then sent[ch] else []
    }

    constructor (since: map<Channel, int>)
      ensures cursor == since && sent == map[]
    {
      cursor, sent := since, map[];
    }

    method Advance(ch: Channel, to: int)
      modifies this`cursor
      ensures At(ch) == Advanced(old(At(ch)), to)
      ensures forall c :: c != ch ==> At(c) == old(At(c))
    {
      if to > At(ch) {
        cursor := cursor[ch := to];
      }
    }

    /** The attach seam: exact, and possibly backwards. */
    method Anchor(ch: Channel, to: int)
      modifies this`cursor
      ensures At(ch) == if to < 0 then 0 else to
      ensures forall c :: c != ch ==> At(c) == old(At(c))
    {
      cursor := cursor[ch := if to < 0 then 0 else to];
    }

    method Push(ch: Channel, frame: Frame)
      modifies this`sent
      ensures Sent(ch) == old(Sent(ch)) + [frame]
      ensures forall c :: c != ch ==> Sent(c) == old(Sent(c))
    {
      sent := sent[ch := Sent(ch) + [frame]];
    }

    method FeedRow(ch: Channel, row: Row)
      modifies this
      ensures Sent(ch) == old(Sent(ch)) + [Feed(row)] && At(ch) == Advanced(old(At(ch)), row.seqNo)
      ensures forall c :: c != ch ==> At(c) == old(At(c)) && Sent(c) == old(Sent(c))
    {
      Push(ch, Feed(row));
      Advance(ch, row.seqNo);
    }

    /** Feed rows until one fails to encode or finds the lane closed. */
    method FeedRows(ch: Channel, page: seq<Row>, stopAt: nat) returns (good: nat)
      requires Climbs(page)
      modifies this
      ensures good == Pushable(page, stopAt)
      ensures Sent(ch) == old(Sent(ch)) + Feeds(page[..good])
      ensures At(ch) == if good == 0 then old(At(ch)) else Advanced(old(At(ch)), page[good - 1].seqNo)
      ensures forall c :: c != ch ==> At(c) == old(At(c)) && Sent(c) == old(Sent(c))
    {
      good := 0;
      while good < |page| && good != stopAt
        invariant 0 <= good <= |page| && good <= stopAt
        invariant Sent(ch) == old(Sent(ch)) + Feeds(page[..good])
        invariant At(ch) == if good == 0 then old(At(ch)) else Advanced(old(At(ch)), page[good - 1].seqNo)
        invariant forall c :: c != ch ==> At(c) == old(At(c)) && Sent(c) == old(Sent(c))
      {
        FeedsExtend(old(Sent(ch)), page, good);
        FeedRow(ch, page[good]);
        good := good + 1;
      }
    }

    /** `stopAt` is the first row that cannot be pushed, if any; `framed` whether the
        checkpoint frame could be built and pushed. */
    method PumpPage(ch: Channel, page: seq<Row>, scanned: int, stopAt: nat, framed: bool) returns (whole: bool)
      requires Climbs(page)
      modifies this
      ensures var (frames, reached) := Pumped(old(At(ch)), page, scanned, Pushable(page, stopAt), framed);
              Sent(ch) == old(Sent(ch)) + frames && At(ch) == reached
      ensures forall c :: c != ch ==> At(c) == old(At(c)) && Sent(c) == old(Sent(c))
      ensures whole <==> |page| <= stopAt && (framed || scanned <= old(At(ch)))
    {
      var at := At(ch);
      var good := FeedRows(ch, page, stopAt);
      whole := false;
      if good < |page| {
        return;
      }
      ghost var fed := Feeds(page[..good]);
      if scanned > at {
        if !framed {
          return;
        }
        Push(ch, Checkpoint(at + 1, scanned));
        Advance(ch, scanned);
        assert old(Sent(ch)) + (fed + [Checkpoint(at + 1, scanned)]) == old(Sent(ch)) + fed + [Checkpoint(at + 1, scanned)];
      }
      whole := true;
    }

    method PumpChannel(ch: Channel, log: Log, stopAt: nat, framed: bool)
      returns (ghost rows: seq<Row>, ghost scanned: int, full: bool)
      requires Sound(log)
      modifies this
      ensures IsRead(log, old(At(ch)), rows, scanned)
      ensures var (frames, reached) := Pumped(old(At(ch)), rows, scanned, Pushable(rows, stopAt), framed);
              Sent(ch) == old(Sent(ch)) + frames && At(ch) == reached
      ensures forall c :: c != ch ==> At(c) == old(At(c)) && Sent(c) == old(Sent(c))
      ensures full <==> |rows| == FEED_BATCH && FEED_BATCH <= stopAt && (framed || scanned <= old(At(ch)))
    {
      var at := At(ch);
      var page, upTo := ReadVisibleAfterSeq(log, at, FEED_BATCH);
      rows, scanned := page, upTo;
      ReadClimbs(log, at, page, upTo);
      var whole := PumpPage(ch, page, upTo, stopAt, framed);
      full := whole && |page| == FEED_BATCH;
    }
  }

  // -------------------------------------------------------------- whole runs

  lemma CountMonotone(rows: seq<Row>, lo: int, hi: int)
    requires Ascending(rows) && lo <= hi
    ensures CountBelow(rows, lo) <= CountBelow(rows, hi)
  {
    var n := CountBelow(rows, lo);
    if 0 < n {
      CountBelowSplits(rows, lo, n - 1);
      CountBelowSplits(rows, hi, n - 1);
    }
  }

  lemma CountThrough(rows: seq<Row>, m: nat)
    requires Ascending(rows) && m < |rows|
    ensures CountBelow(rows, rows[m].seqNo + 1) == m + 1
  {
    CountBelowIs(rows, rows[m].seqNo + 1, m + 1);
  }

  lemma BetweenSplit(rows: seq<Row>, lo: int, mid: int, hi: int)
    requires Ascending(rows) && lo <= mid <= hi
    ensures Between(rows, lo, hi) == Between(rows, lo, mid) + Between(rows, mid, hi)
  {
    CountMonotone(rows, lo + 1, mid + 1);
    CountMonotone(rows, mid + 1, hi + 1);
  }

  /** One channel's life on a lane: where it started, where its cursor is, and every
      frame pushed for it. */
  datatype Life = Life(log: Log, start: int, cursor: int, frames: seq<Frame>)

  datatype Event =
    | Commit(log: Log)
    | Pump(rows: seq<Row>, scanned: int, good: nat, checkpoint: bool)

  ghost predicate Enabled(l: Life, e: Event) {
    match e
    case Commit(log) => Sound(log) && Grows(l.log, log)
    case Pump(rows, scanned, good, _) => IsRead(l.log, l.cursor, rows, scanned) && good <= |rows|
  }

  function Step(l: Life, e: Event): Life
    requires Enabled(l, e)
  {
    match e
    case Commit(log) => l.(log := log)
    case Pump(rows, scanned, good, checkpoint) =>
      var (frames, reached) := Pumped(l.cursor, rows, scanned, good, checkpoint);
      l.(frames := l.frames + frames, cursor := reached)
  }

  /** Every visible row a checkpoint claims to cover was pushed before it. */
  ghost predicate Covered(log: Log, frames: seq<Frame>, i: nat)
    requires i < |frames| && frames[i].Checkpoint?
  {
    && frames[i].scanned <= log.head
    && forall r :: r in log.visible && frames[i].scanLow <= r.seqNo <= frames[i].scanned ==> r in Rows(frames[..i])
  }

  ghost predicate Inv(l: Life) {
    && Sound(l.log)
    && l.start <= l.cursor && (l.start < l.cursor ==> l.cursor <= l.log.head)
    && Rows(l.frames) == Between(l.log.visible, l.start, l.cursor)
    && forall i :: 0 <= i < |l.frames| && l.frames[i].Checkpoint? ==> Covered(l.log, l.frames, i)
  }

  lemma {:induction false} RowsConcat(a: seq<Frame>, b: seq<Frame>)
    ensures Rows(a + b) == Rows(a) + Rows(b)
  {
    if b == [] {
      assert a + b == a;
    } else {
      var c := b[..|b| - 1];
      RowsConcat(a, c);
      assert (a + b)[..|a + b| - 1] == a + c;
    }
  }

  lemma {:induction false} RowsOfFeeds(rows: seq<Row>)
    ensures Rows(Feeds(rows)) == rows
  {
    if rows != [] {
      var n := |rows| - 1;
      RowsOfFeeds(rows[..n]);
      assert Feeds(rows)[..n] == Feeds(rows[..n]);
    }
  }

  lemma CommitKeepsCount(a: Log, b: Log, before: int)
    requires Sound(a) && Sound(b) && Grows(a, b) && before <= a.head + 1
    ensures CountBelow(b.visible, before) == CountBelow(a.visible, before)
  {
    var n := CountBelow(a.visible, before);
    if 0 < n { CountBelowSplits(a.visible, before, n - 1); }
    if n < |a.visible| { CountBelowSplits(a.visible, before, n); }
    CountBelowIs(b.visible, before, n);
  }

  lemma PrefixSlice(a: seq<Row>, b: seq<Row>, n: nat, m: nat)
    requires a <= b && n <= m <= |a|
    ensures b[n..m] == a[n..m]
  {
  }

  lemma CommitKeepsBetween(a: Log, b: Log, lo: int, hi: int)
    requires Sound(a) && Sound(b) && Grows(a, b) && lo <= hi && (lo < hi ==> hi <= a.head)
    ensures Between(b.visible, lo, hi) == Between(a.visible, lo, hi)
  {
    if lo < hi {
      CommitKeepsCount(a, b, lo + 1);
      CommitKeepsCount(a, b, hi + 1);
      CountMonotone(a.visible, lo + 1, hi + 1);
      PrefixSlice(a.visible, b.visible, CountBelow(a.visible, lo + 1), CountBelow(a.visible, hi + 1));
    }
  }

  lemma CommitKeepsCovered(a: Log, b: Log, frames: seq<Frame>, i: nat)
    requires Sound(a) && Grows(a, b) && i < |frames| && frames[i].Checkpoint? && Covered(a, frames, i)
    ensures Covered(b, frames, i)
  {
    forall r | r in b.visible && frames[i].scanLow <= r.seqNo <= frames[i].scanned
      ensures r in Rows(frames[..i])
    {
      var k :| 0 <= k < |b.visible| && b.visible[k] == r;
      assert k < |a.visible| && a.visible[k] == r;
    }
  }

  /** The rows fed in a round continue exactly where the cursor stood. */
  lemma FedReaches(v: seq<Row>, at: int, good: nat)
    requires Ascending(v) && 0 < good && CountBelow(v, at + 1) + good <= |v|
    ensures var n := CountBelow(v, at + 1);
            at < v[n + good - 1].seqNo && Between(v, at, v[n + good - 1].seqNo) == v[n..n + good]
  {
    var n := CountBelow(v, at + 1);
    CountThrough(v, n + good - 1);
    CountBelowSplits(v, at + 1, n + good - 1);
  }

  lemma ReadSlice(log: Log, at: int, rows: seq<Row>, scanned: int, good: nat)
    requires IsRead(log, at, rows, scanned) && good <= |rows|
    ensures var n := CountBelow(log.visible, at + 1);
            && log.visible[n..n + good] == rows[..good]
            && (0 < good ==> rows[good - 1] == log.visible[n + good - 1])
  {
    var n := CountBelow(log.visible, at + 1);
    SliceOfSlice(log.visible, n, n + |rows|, good);
  }

  lemma ScanReaches(log: Log, at: int, rows: seq<Row>, scanned: int)
    requires Sound(log) && IsRead(log, at, rows, scanned) && at < scanned
    ensures scanned <= log.head && Between(log.visible, at, scanned) == rows
    ensures rows != [] ==> rows[|rows| - 1].seqNo <= scanned
  {
    var v, n := log.visible, CountBelow(log.visible, at + 1);
    ReadSlice(log, at, rows, scanned, |rows|);
    if rows != [] && scanned == rows[|rows| - 1].seqNo {
      FedReaches(v, at, |rows|);
    } else {
      AllBelowHead(log);
    }
  }

  lemma FeedsReach(log: Log, at: int, rows: seq<Row>, scanned: int, good: nat)
    requires Sound(log) && IsRead(log, at, rows, scanned) && 0 < good <= |rows|
    ensures var reached := rows[good - 1].seqNo;
            at < reached <= log.head && Between(log.visible, at, reached) == rows[..good]
  {
    ReadSlice(log, at, rows, scanned, good);
    FedReaches(log.visible, at, good);
  }

  lemma PumpReaches(log: Log, at: int, rows: seq<Row>, scanned: int, good: nat, checkpoint: bool)
    requires Sound(log) && IsRead(log, at, rows, scanned) && good <= |rows|
    ensures var reached := Pumped(at, rows, scanned, good, checkpoint).1;
            && at <= reached && (at < reached ==> reached <= log.head)
            && Between(log.visible, at, reached) == rows[..good]
  {
    if good == |rows| && checkpoint && scanned > at {
      ScanReaches(log, at, rows, scanned);
      assert rows[..good] == rows;
    } else if 0 < good {
      FeedsReach(log, at, rows, scanned, good);
    }
  }

  lemma AllBelowHead(log: Log)
    requires Sound(log)
    ensures CountBelow(log.visible, log.head + 1) == |log.visible|
  {
    CountBelowIs(log.visible, log.head + 1, |log.visible|);
  }

  lemma {:induction false} PumpedRows(frames: seq<Frame>, at: int, rows: seq<Row>, scanned: int, good: nat, checkpoint: bool)
    requires good <= |rows|
    ensures Rows(frames + Pumped(at, rows, scanned, good, checkpoint).0) == Rows(frames) + rows[..good]
  {
    var fed := Feeds(rows[..good]);
    RowsOfFeeds(rows[..good]);
    var more := Pumped(at, rows, scanned, good, checkpoint).0;
    RowsConcat(frames, more);
    if more != fed {
      RowsConcat(fed, [Checkpoint(at + 1, scanned)]);
    }
  }

  lemma PumpKeepsRows(l: Life, e: Event)
    requires Sound(l.log) && e.Pump? && Enabled(l, e)
    requires l.start <= l.cursor && (l.start < l.cursor ==> l.cursor <= l.log.head)
    requires Rows(l.frames) == Between(l.log.visible, l.start, l.cursor)
    ensures var n := Step(l, e);
            && n.start <= n.cursor && (n.start < n.cursor ==> n.cursor <= n.log.head)
            && Rows(n.frames) == Between(n.log.visible, n.start, n.cursor)
  {
    PumpReaches(l.log, l.cursor, e.rows, e.scanned, e.good, e.checkpoint);
    PumpedRows(l.frames, l.cursor, e.rows, e.scanned, e.good, e.checkpoint);
    BetweenSplit(l.log.visible, l.start, l.cursor, Step(l, e).cursor);
  }

  lemma OldMarkStays(log: Log, frames: seq<Frame>, more: seq<Frame>, i: nat)
    requires i < |frames| && frames[i].Checkpoint? && Covered(log, frames, i)
    ensures Covered(log, frames + more, i)
  {
    assert (frames + more)[..i] == frames[..i];
  }

  lemma NewMarkCovers(log: Log, frames: seq<Frame>, at: int, rows: seq<Row>, scanned: int)
    requires Sound(log) && IsRead(log, at, rows, scanned) && at < scanned
    ensures var all := frames + (Feeds(rows) + [Checkpoint(at + 1, scanned)]);
            Covered(log, all, |all| - 1)
  {
    var all := frames + (Feeds(rows) + [Checkpoint(at + 1, scanned)]);
    assert all[..|all| - 1] == frames + Feeds(rows);
    RowsConcat(frames, Feeds(rows));
    RowsOfFeeds(rows);
    ScanReaches(log, at, rows, scanned);
    forall r | r in log.visible && at + 1 <= r.seqNo <= scanned
      ensures r in rows
    {
      InBetween(log.visible, at, scanned, r);
    }
  }

  lemma MarkComesLast(at: int, rows: seq<Row>, scanned: int, good: nat, checkpoint: bool, j: nat)
    requires good <= |rows|
    requires var more := Pumped(at, rows, scanned, good, checkpoint).0; j < |more| && more[j].Checkpoint?
    ensures var more := Pumped(at, rows, scanned, good, checkpoint).0;
            at < scanned && more == Feeds(rows) + [Checkpoint(at + 1, scanned)] && j == |more| - 1
  {
    assert rows[..|rows|] == rows;
  }

  lemma PumpKeepsCovered(log: Log, frames: seq<Frame>, at: int, e: Event, i: nat)
    requires Sound(log) && e.Pump? && IsRead(log, at, e.rows, e.scanned) && e.good <= |e.rows|
    requires var all := frames + Pumped(at, e.rows, e.scanned, e.good, e.checkpoint).0; i < |all| && all[i].Checkpoint?
    requires i < |frames| && frames[i].Checkpoint? ==> Covered(log, frames, i)
    ensures Covered(log, frames + Pumped(at, e.rows, e.scanned, e.good, e.checkpoint).0, i)
  {
    var more := Pumped(at, e.rows, e.scanned, e.good, e.checkpoint).0;
    if i < |frames| {
      OldMarkStays(log, frames, more, i);
    } else {
      MarkComesLast(at, e.rows, e.scanned, e.good, e.checkpoint, i - |frames|);
      NewMarkCovers(log, frames, at, e.rows, e.scanned);
    }
  }

  lemma IndexBetween(rows: seq<Row>, lo: int, hi: int, k: nat)
    requires Ascending(rows) && k < |rows| && lo < rows[k].seqNo <= hi
    ensures CountBelow(rows, lo + 1) <= k < CountBelow(rows, hi + 1)
  {
    CountBelowSplits(rows, lo + 1, k);
    CountBelowSplits(rows, hi + 1, k);
  }

  lemma InBetween(rows: seq<Row>, lo: int, hi: int, r: Row)
    requires Ascending(rows) && r in rows && lo < r.seqNo <= hi
    ensures r in Between(rows, lo, hi)
  {
    var k :| 0 <= k < |rows| && rows[k] == r;
    IndexBetween(rows, lo, hi, k);
    assert Between(rows, lo, hi)[k - CountBelow(rows, lo + 1)] == r;
  }

  lemma StepKeepsInv(l: Life, e: Event)
    requires Inv(l) && Enabled(l, e)
    ensures Inv(Step(l, e))
  {
    match e
    case Commit(log) =>
      CommitKeepsBetween(l.log, log, l.start, l.cursor);
      forall i | 0 <= i < |l.frames| && l.frames[i].Checkpoint?
        ensures Covered(log, l.frames, i)
      {
        CommitKeepsCovered(l.log, log, l.frames, i);
      }
    case Pump(_, _, _, _) =>
      PumpKeepsRows(l, e);
      forall i | 0 <= i < |Step(l, e).frames| && Step(l, e).frames[i].Checkpoint?
        ensures Covered(l.log, Step(l, e).frames, i)
      {
        PumpKeepsCovered(l.log, l.frames, l.cursor, e, i);
      }
  }

  ghost predicate Runnable(l: Life, events: seq<Event>)
    decreases |events|
  {
    events == [] || (Enabled(l, events[0]) && Runnable(Step(l, events[0]), events[1..]))
  }

  ghost function Run(l: Life, events: seq<Event>): Life
    requires Runnable(l, events)
    decreases |events|
  {
    if events == [] then l else Run(Step(l, events[0]), events[1..])
  }

  lemma {:induction false} RunKeepsInv(l: Life, events: seq<Event>)
    requires Inv(l) && Runnable(l, events)
    ensures Inv(Run(l, events))
    decreases |events|
  {
    if events != [] {
      StepKeepsInv(l, events[0]);
      RunKeepsInv(Step(l, events[0]), events[1..]);
    }
  }

  /** Across any run of rounds and commits, with encoding failures and retries: the
      rows pushed are exactly the visible rows in (start, cursor], each once and in
      order, and no checkpoint covers a row that was not pushed before it. */
  lemma LiveFeedIsExact(log: Log, start: int, events: seq<Event>)
    requires Sound(log) && Runnable(Life(log, start, start, []), events)
    ensures var l := Run(Life(log, start, start, []), events);
            && Rows(l.frames) == Between(l.log.visible, start, l.cursor)
            && forall i :: 0 <= i < |l.frames| && l.frames[i].Checkpoint? ==> Covered(l.log, l.frames, i)
  {
    var l := Life(log, start, start, []);
    assert Between(log.visible, start, start) == [];
    RunKeepsInv(l, events);
    StartStays(l, events);
  }

  lemma {:induction false} StartStays(l: Life, events: seq<Event>)
    requires Runnable(l, events)
    ensures Run(l, events).start == l.start
    decreases |events|
  {
    if events != [] {
      StartStays(Step(l, events[0]), events[1..]);
    }
  }

  lemma NothingBehind(log: Log, at: int, rows: seq<Row>, scanned: int)
    requires Sound(log) && IsRead(log, at, rows, scanned) && scanned <= at
    ensures rows == []
  {
    if rows != [] {
      FeedsReach(log, at, rows, scanned, |rows|);
      AllBelowHead(log);
      CountMonotone(log.visible, log.head + 1, at + 1);
    }
  }

  /** And the feed is not left behind: after any run, a round that pushed all it read has
      every visible row up to its scan pushed, and with its checkpoint the cursor stands at
      the scan, which the last frame covers from where the cursor was. */
  lemma CleanRoundCatchesUp(log: Log, start: int, events: seq<Event>, rows: seq<Row>, scanned: int, checkpoint: bool)
    requires Sound(log) && Runnable(Life(log, start, start, []), events)
    requires var l := Run(Life(log, start, start, []), events); IsRead(l.log, l.cursor, rows, scanned)
    ensures var l := Run(Life(log, start, start, []), events);
            var n := Step(l, Pump(rows, scanned, |rows|, checkpoint));
            && Rows(n.frames) == Between(l.log.visible, start, if l.cursor < scanned then scanned else l.cursor)
            && (checkpoint && l.cursor < scanned ==>
                  n.cursor == scanned && n.frames != [] && n.frames[|n.frames| - 1] == Checkpoint(l.cursor + 1, scanned))
  {
    var first := Life(log, start, start, []);
    assert Between(log.visible, start, start) == [];
    RunKeepsInv(first, events);
    StartStays(first, events);
    RoundCatchesUp(Run(first, events), rows, scanned, checkpoint);
    if checkpoint && Run(first, events).cursor < scanned { RoundEnds(Run(first, events), rows, scanned); }
  }

  lemma RoundCatchesUp(l: Life, rows: seq<Row>, scanned: int, checkpoint: bool)
    requires Inv(l) && IsRead(l.log, l.cursor, rows, scanned)
    ensures Rows(Step(l, Pump(rows, scanned, |rows|, checkpoint)).frames) ==
            Between(l.log.visible, l.start, if l.cursor < scanned then scanned else l.cursor)
  {
    PumpedRows(l.frames, l.cursor, rows, scanned, |rows|, checkpoint);
    assert rows[..|rows|] == rows;
    if l.cursor < scanned {
      ScanReaches(l.log, l.cursor, rows, scanned);
      BetweenSplit(l.log.visible, l.start, l.cursor, scanned);
    } else {
      NothingBehind(l.log, l.cursor, rows, scanned);
    }
  }

  lemma RoundEnds(l: Life, rows: seq<Row>, scanned: int)
    requires Inv(l) && IsRead(l.log, l.cursor, rows, scanned) && l.cursor < scanned
    ensures var n := Step(l, Pump(rows, scanned, |rows|, true));
            n.cursor == scanned && n.frames != [] && n.frames[|n.frames| - 1] == Checkpoint(l.cursor + 1, scanned)
  {
    ScanReaches(l.log, l.cursor, rows, scanned);
  }
}
