/** The worker parks on a one-slot signal when it finds the work queue empty.  A push
    appends under the lock and posts its signal afterwards. */
module WorkWake {
  import opened WorkDeque

  datatype Worker = Looking | Working(env: Envelope) | Parked

  /** `waking` are pushes whose signal is still to be posted. */
  datatype Work = Work(items: seq<Envelope>, signalled: bool, waking: nat, worker: Worker)

  const Start := Work([], false, 0, Looking)

  datatype Step = Push(env: Envelope) | Signal | Pop | Done | Wake

  predicate Enabled(w: Work, s: Step) {
    match s
    case Push(_) => true
    case Signal => 0 < w.waking
    case Pop => w.worker.Looking?
    case Done => w.worker.Working?
    case Wake => w.worker.Parked? && w.signalled
  }

  function Next(w: Work, s: Step, cap: nat): Work
    requires Enabled(w, s)
  {
    match s
    case Push(env) =>
      w.(items := Pushed(w.items, cap, env).0, waking := if Refuses(w.items, cap) then w.waking else w.waking + 1)
    case Signal => w.(signalled := true, waking := w.waking - 1)
    case Pop => if w.items == [] then w.(worker := Parked) else w.(worker := Working(w.items[0]), items := w.items[1..])
    case Done => w.(worker := Looking)
    case Wake => w.(signalled := false, worker := Looking)
  }

  ghost predicate Inv(w: Work, cap: nat) {
    |w.items| <= cap && (w.worker.Parked? && w.items != [] ==> w.signalled || 0 < w.waking)
  }

  lemma StepKeepsInv(w: Work, s: Step, cap: nat)
    requires Inv(w, cap) && Enabled(w, s)
    ensures Inv(Next(w, s, cap), cap)
  {
    if s.Push? { PushIsFifo(w.items, cap, s.env); }
  }

  ghost predicate Runnable(w: Work, steps: seq<Step>, cap: nat)
    decreases |steps|
  {
    steps == [] || (Enabled(w, steps[0]) && Runnable(Next(w, steps[0], cap), steps[1..], cap))
  }

  ghost function Run(w: Work, steps: seq<Step>, cap: nat): Work
    requires Runnable(w, steps, cap)
    decreases |steps|
  {
    if steps == [] then w else Run(Next(w, steps[0], cap), steps[1..], cap)
  }

  lemma {:induction false} RunKeepsInv(w: Work, steps: seq<Step>, cap: nat)
    requires Inv(w, cap) && Runnable(w, steps, cap)
    ensures Inv(Run(w, steps, cap), cap)
    decreases |steps|
  {
    if steps != [] {
      StepKeepsInv(w, steps[0], cap);
      RunKeepsInv(Next(w, steps[0], cap), steps[1..], cap);
    }
  }

  /** No wake-up is lost: in every run a worker asleep with no signal posted and none
      coming sleeps on an empty queue, and queued work always has a step that leads the
      worker to it. */
  lemma NoLostWakeup(steps: seq<Step>, cap: nat)
    requires Runnable(Start, steps, cap)
    ensures var w := Run(Start, steps, cap);
            && (w.worker.Parked? && !w.signalled && w.waking == 0 ==> w.items == [])
            && (w.items != [] ==> Enabled(w, Pop) || Enabled(w, Done) || Enabled(w, Wake) || Enabled(w, Signal))
  {
    RunKeepsInv(Start, steps, cap);
  }
}
