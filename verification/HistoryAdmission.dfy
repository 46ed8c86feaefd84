/** Admission of history reads on one connection: a few at a time, fewer in the background,
    and one per channel, so no channel races two cursors. */
module HistoryAdmission {

  type Channel = string
  type Ref = string

  const MAX_INFLIGHT := 4
  const MAX_BACKGROUND := 3

  datatype Request = Request(ref: Ref, background: bool)

  datatype Verdict = Accepted | ConnectionFull | BackgroundFull | ChannelBusy

  /** `running` are the reads started and not yet released. */
  datatype Desk = Desk(inflight: map<Channel, Request>, count: int, background: int, running: multiset<(Channel, Ref)>)

  const Start := Desk(map[], 0, 0, multiset{})

  function Admit(d: Desk, ch: Channel, r: Request): (Desk, Verdict) {
    if d.count >= MAX_INFLIGHT then (d, ConnectionFull)
    else if r.background && d.background >= MAX_BACKGROUND then (d, BackgroundFull)
    else if ch in d.inflight then (d, ChannelBusy)
    else
      (Desk(d.inflight[ch := r], d.count + 1, if r.background then d.background + 1 else d.background,
            d.running + multiset{(ch, r.ref)}), Accepted)
  }

  /** The release a read defers: only of the row that is still its own. */
  function Release(d: Desk, ch: Channel, ref: Ref): Desk {
    var ended := d.(running := d.running - multiset{(ch, ref)});
    if ch !in d.inflight || d.inflight[ch].ref != ref then ended
    else
      ended.(inflight := d.inflight - {ch}, count := d.count - 1,
             background := if d.inflight[ch].background then d.background - 1 else d.background)
  }

  class Reads {
    var inflight: map<Channel, Request>
    var count: int
    var backgroundCount: int
    ghost var running: multiset<(Channel, Ref)>

    ghost function View(): Desk
      reads this
    {
      Desk(inflight, count, backgroundCount, running)
    }

    constructor ()
      ensures View() == Start
    {
      inflight, count, backgroundCount, running := map[], 0, 0, multiset{};
    }

    method Begin(ch: Channel, r: Request) returns (v: Verdict)
      modifies this
      ensures (View(), v) == Admit(old(View()), ch, r)
    {
      if count >= MAX_INFLIGHT {
        return ConnectionFull;
      }
      if r.background && backgroundCount >= MAX_BACKGROUND {
        return BackgroundFull;
      }
      if ch in inflight {
        return ChannelBusy;
      }
      inflight, count, running := inflight[ch := r], count + 1, running + multiset{(ch, r.ref)};
      if r.background {
        backgroundCount := backgroundCount + 1;
      }
      return Accepted;
    }

    method End(ch: Channel, ref: Ref)
      modifies this
      ensures View() == Release(old(View()), ch, ref)
    {
      running := running - multiset{(ch, ref)};
      if ch !in inflight || inflight[ch].ref != ref {
        return;
      }
      var request := inflight[ch];
      inflight, count := inflight - {ch}, count - 1;
      if request.background {
        backgroundCount := backgroundCount - 1;
      }
    }
  }

  datatype Step = Ask(channel: Channel, request: Request) | Finish(channel: Channel, ref: Ref)

  predicate Enabled(d: Desk, s: Step) { s.Finish? ==> (s.channel, s.ref) in d.running }

  function Next(d: Desk, s: Step): Desk {
    match s
    case Ask(ch, r) => Admit(d, ch, r).0
    case Finish(ch, ref) => Release(d, ch, ref)
  }

  function Background(inflight: map<Channel, Request>): set<Channel> {
    set ch | ch in inflight && inflight[ch].background
  }

  function Owners(inflight: map<Channel, Request>): set<(Channel, Ref)> {
    set ch | ch in inflight :: (ch, inflight[ch].ref)
  }

  /** The counters count, and each running read owns exactly its row. */
  ghost predicate Inv(d: Desk) {
    && d.count == |d.inflight| <= MAX_INFLIGHT
    && d.background == |Background(d.inflight)| <= MAX_BACKGROUND
    && d.running == multiset(Owners(d.inflight))
  }

  lemma OneMoreRow(inflight: map<Channel, Request>, ch: Channel, r: Request)
    requires ch !in inflight
    ensures |inflight[ch := r]| == |inflight| + 1
  {
    var more := inflight[ch := r];
    assert more.Keys == inflight.Keys + {ch};
    assert |more| == |more.Keys| && |inflight| == |inflight.Keys|;
  }

  lemma OneMoreBackground(inflight: map<Channel, Request>, ch: Channel, r: Request)
    requires ch !in inflight
    ensures |Background(inflight[ch := r])| == |Background(inflight)| + if r.background then 1 else 0
  {
    if r.background {
      assert Background(inflight[ch := r]) == Background(inflight) + {ch};
    } else {
      assert Background(inflight[ch := r]) == Background(inflight);
    }
  }

  lemma OneMoreOwner(inflight: map<Channel, Request>, ch: Channel, r: Request)
    requires ch !in inflight
    ensures (ch, r.ref) !in Owners(inflight) && Owners(inflight[ch := r]) == Owners(inflight) + {(ch, r.ref)}
  {
    var more := inflight[ch := r];
    forall x | x in Owners(inflight) + {(ch, r.ref)}
      ensures x in Owners(more)
    {
      assert x.0 in more && x == (x.0, more[x.0].ref);
    }
  }

  lemma BeginKeepsCounts(inflight: map<Channel, Request>, ch: Channel, r: Request)
    requires ch !in inflight
    ensures |inflight[ch := r]| == |inflight| + 1
    ensures |Background(inflight[ch := r])| == |Background(inflight)| + if r.background then 1 else 0
    ensures multiset(Owners(inflight[ch := r])) == multiset(Owners(inflight)) + multiset{(ch, r.ref)}
  {
    OneMoreRow(inflight, ch, r);
    OneMoreBackground(inflight, ch, r);
    OneMoreOwner(inflight, ch, r);
  }

  lemma WithoutAndBack(inflight: map<Channel, Request>, ch: Channel)
    requires ch in inflight
    ensures ch !in inflight - {ch} && (inflight - {ch})[ch := inflight[ch]] == inflight
  {
  }

  lemma StepKeepsInv(d: Desk, s: Step)
    requires Inv(d) && Enabled(d, s)
    ensures Inv(Next(d, s))
  {
    match s
    case Ask(ch, r) => if ch !in d.inflight { BeginKeepsCounts(d.inflight, ch, r); }
    case Finish(ch, ref) => ReleaseKeepsInv(d, ch, ref);
  }

  lemma ReleaseKeepsInv(d: Desk, ch: Channel, ref: Ref)
    requires Inv(d) && (ch, ref) in d.running
    ensures Inv(Release(d, ch, ref))
  {
    assert (ch, ref) in Owners(d.inflight);
    WithoutAndBack(d.inflight, ch);
    BeginKeepsCounts(d.inflight - {ch}, ch, d.inflight[ch]);
  }

  ghost predicate Runnable(d: Desk, steps: seq<Step>)
    decreases |steps|
  {
    steps == [] || (Enabled(d, steps[0]) && Runnable(Next(d, steps[0]), steps[1..]))
  }

  function Run(d: Desk, steps: seq<Step>): Desk
    decreases |steps|
  {
    if steps == [] then d else Run(Next(d, steps[0]), steps[1..])
  }

  lemma {:induction false} RunKeepsInv(d: Desk, steps: seq<Step>)
    requires Inv(d) && Runnable(d, steps)
    ensures Inv(Run(d, steps))
    decreases |steps|
  {
    if steps != [] {
      StepKeepsInv(d, steps[0]);
      RunKeepsInv(Next(d, steps[0]), steps[1..]);
    }
  }

  /** Over every run, whatever refs clients reuse: no more reads run than the limits allow,
      no channel has two, and when all reads have ended every counter is back to zero. */
  lemma CapacityNeverLeaks(steps: seq<Step>)
    requires Runnable(Start, steps)
    ensures var d := Run(Start, steps);
            && |d.running| == d.count <= MAX_INFLIGHT && 0 <= d.background <= MAX_BACKGROUND
            && (forall a, b | a in d.running && b in d.running && a.0 == b.0 :: a == b && d.running[a] == 1)
            && (d.running == multiset{} ==> d.inflight == map[] && d.count == 0 && d.background == 0)
  {
    RunKeepsInv(Start, steps);
    var d := Run(Start, steps);
    OwnersCount(d.inflight);
    if d.running == multiset{} {
      assert |Owners(d.inflight)| == 0;
      assert Background(d.inflight) == {};
    }
  }

  lemma {:induction false} OwnersCount(inflight: map<Channel, Request>)
    ensures |Owners(inflight)| == |inflight|
    decreases |inflight|
  {
    if inflight != map[] {
      var ch :| ch in inflight;
      WithoutAndBack(inflight, ch);
      OneMoreRow(inflight - {ch}, ch, inflight[ch]);
      OneMoreOwner(inflight - {ch}, ch, inflight[ch]);
      OwnersCount(inflight - {ch});
    }
  }

  /** And no read is turned away while there is room: after every run a request is accepted
      exactly when fewer than four reads run, fewer than three in the background if it is
      one of those, and none on its channel. */
  lemma AcceptedIffRoom(steps: seq<Step>, ch: Channel, r: Request)
    requires Runnable(Start, steps)
    ensures var d := Run(Start, steps);
            Admit(d, ch, r).1.Accepted? <==>
              && |d.running| < 4
              && (r.background ==> |Background(d.inflight)| < 3)
              && forall ref: Ref :: (ch, ref) !in d.running
  {
    RunKeepsInv(Start, steps);
    var d := Run(Start, steps);
    OwnersCount(d.inflight);
    if ch in d.inflight {
      assert (ch, d.inflight[ch].ref) in Owners(d.inflight);
    }
  }
}
