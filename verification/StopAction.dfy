/** Disabling a policy and then stopping its jobs works, in every interleaving with workers,
    dispatchers, other stop actions, crashes and restarts. */
module StopAction {
  import opened States
  import opened JobService
  import opened Carriers
  import opened Guarantees

  predicate Off(s: Service, p: PolicyId) {
    p in s.enabled && !s.enabled[p]
  }

  /** The worker will start at most one more working handler for job `j`: it does not have the job
      past Reset, or it is about to end the run, or its machine has been asked to stop. */
  predicate Settled(worker: Worker, j: JobId) {
    match worker.stage
    case Entering(i, _, n) => i == j ==> worker.desired == Stopped || n in {Finished, Stopped, Error, Retrying}
    case Looping(i, _, n) => i == j ==> worker.desired == Stopped || n in {Finished, Stopped, Error, Retrying}
    case _ => true
  }

  ghost predicate SettledAt(s: Service, w: nat, j: JobId) {
    At(s, w) ==> Settled(s.workers[w], j)
  }

  ghost predicate AllSettled(s: Service, j: JobId) {
    forall w: nat :: SettledAt(s, w, j)
  }

  predicate TurnsOn(step: Step, p: PolicyId) {
    step == SetEnabled(p, true)
  }

  lemma SettledEntered(s: Service, step: Step, j: JobId)
    requires Enabled(s, step) && step.Enter? && SettledAt(s, step.w, j)
    ensures SettledAt(Apply(s, step), step.w, j)
  {
    hide Enabled, Apply, Legal, TableOf, EnterState;
    OwnApply(s, step);
    EnterTouches(s, step.w, step.o);
    EnterLeads(s, step.w, step.o);
  }

  lemma SettledOwn(s: Service, step: Step, j: JobId)
    requires Enabled(s, step) && ByWorker(step) && !step.Enter? && SettledAt(s, step.w, j)
    requires j in s.rows && Off(s, s.rows[j].policy)
    ensures SettledAt(Apply(s, step), step.w, j)
  {
    hide Enabled, Apply, EnterState, Targets, Only, TableOf, SetStatus, Answers;
    OwnApply(s, step);
  }

  lemma SettledStep(s: Service, step: Step, w: nat, j: JobId)
    requires Enabled(s, step) && j in s.rows && Off(s, s.rows[j].policy) && SettledAt(s, w, j)
    ensures SettledAt(Apply(s, step), w, j)
  {
    hide Enabled, Apply, Off, Stops;
    if !(ByWorker(step) && step.w == w) {
      OthersTouch(s, step, w);
    } else if step.Enter? {
      SettledEntered(s, step, j);
    } else {
      SettledOwn(s, step, j);
    }
  }

  /** The stop action `k` has dealt with worker `w` for the `m`-th id of its list. */
  predicate Passed(c: Stopper, m: nat, w: nat)
    requires !c.Asking?
  {
    m < c.i || (m == c.i && w < c.w)
  }

  /** Every job the stop action has dealt with, at every worker it has looked at, is settled. */
  ghost predicate Scanned(s: Service, k: nat, ids: seq<JobId>) {
    && k in s.stoppers && !s.stoppers[k].Asking? && s.stoppers[k].ids == ids && s.stoppers[k].i <= |ids|
    && forall m: nat, w: nat | m < |ids| && Passed(s.stoppers[k], m, w) :: SettledAt(s, w, ids[m])
  }

  /** The ids are jobs of policy `p`. */
  ghost predicate JobsOf(rows: map<JobId, Row>, ids: seq<JobId>, p: PolicyId) {
    forall m | 0 <= m < |ids| :: ids[m] in rows && rows[ids[m]].policy == p
  }

  /** A worker whose machine has another job does not have this one past Reset. */
  lemma OtherJobIsSettled(s: Service, w: nat, j: JobId)
    requires Inv(s) && (At(s, w) ==> s.workers[w].jobID != j)
    ensures SettledAt(s, w, j)
  {
    hide Inv, Legal, TableOf;
    if At(s, w) { SoundAt(s, w); }
  }

  lemma AskedIsSettled(s: Service, w: nat, j: JobId)
    requires At(s, w) && s.workers[w].desired == Stopped
    ensures SettledAt(s, w, j)
  {
  }

  lemma SameWorkersSettled(s: Service, s': Service, w: nat, j: JobId)
    requires SettledAt(s, w, j) && s'.workers == s.workers
    ensures SettledAt(s', w, j)
  {
  }

  /** How far the stop action gets in one step. */
  lemma PassedStep(s: Service, step: Step, k: nat, ids: seq<JobId>, m: nat, w: nat)
    requires Inv(s) && Enabled(s, step) && !step.Crash?
    requires k in s.stoppers && !s.stoppers[k].Asking? && s.stoppers[k].ids == ids && s.stoppers[k].i <= |ids|
    ensures var s' := Apply(s, step);
      && k in s'.stoppers && !s'.stoppers[k].Asking? && s'.stoppers[k].ids == ids && s'.stoppers[k].i <= |ids|
      && (m < |ids| && Passed(s'.stoppers[k], m, w) && !Passed(s.stoppers[k], m, w) ==> SettledAt(s', w, ids[m]))
  {
    hide Inv, Enabled, Apply, SettledAt;
    if ByStart(step) {
      StartFrame(s, step);
    } else if ByQueue(step) {
      QueueFrame(s, step);
    } else if ByWorker(step) {
      WorkerFrame(s, step);
    } else if step.Inspect? {
      PassedInspected(s, step, k, ids, m, w);
    } else if step.CallStop? {
      PassedCalled(s, step, k, ids, m, w);
    } else {
      StopApply(s, step);
    }
  }

  lemma InspectApply(s: Service, step: Step)
    requires Enabled(s, step) && step.Inspect?
    ensures step.k in s.stoppers && s.stoppers[step.k].Scanning? && s.stoppers[step.k].i < |s.stoppers[step.k].ids|
    ensures Apply(s, step) == s.(stoppers := s.stoppers[step.k := Inspected(s, s.stoppers[step.k])])
  {
    StopApply(s, step);
    hide Enabled, Apply, Inspected;
  }

  lemma CallApply(s: Service, step: Step)
    requires Enabled(s, step) && step.CallStop?
    ensures step.k in s.stoppers && s.stoppers[step.k].Calling? && At(s, s.stoppers[step.k].w)
    ensures s.stoppers[step.k].i < |s.stoppers[step.k].ids| && Apply(s, step) == StopCalled(s, step.k)
  {
    StopApply(s, step);
    hide Enabled, Apply, StopCalled;
  }

  lemma PassedInspected(s: Service, step: Step, k: nat, ids: seq<JobId>, m: nat, w: nat)
    requires Inv(s) && Enabled(s, step) && step.Inspect?
    requires k in s.stoppers && !s.stoppers[k].Asking? && s.stoppers[k].ids == ids && s.stoppers[k].i <= |ids|
    ensures var s' := Apply(s, step);
      && k in s'.stoppers && !s'.stoppers[k].Asking? && s'.stoppers[k].ids == ids && s'.stoppers[k].i <= |ids|
      && (m < |ids| && Passed(s'.stoppers[k], m, w) && !Passed(s.stoppers[k], m, w) ==> SettledAt(s', w, ids[m]))
  {
    hide Inv, Enabled, Apply, SettledAt;
    InspectApply(s, step);
    var s' := Apply(s, step);
    if m < |ids| && Passed(s'.stoppers[k], m, w) && !Passed(s.stoppers[k], m, w) {
      OtherJobIsSettled(s, w, ids[m]);
      SameWorkersSettled(s, s', w, ids[m]);
    }
  }

  lemma PassedCalled(s: Service, step: Step, k: nat, ids: seq<JobId>, m: nat, w: nat)
    requires Inv(s) && Enabled(s, step) && step.CallStop?
    requires k in s.stoppers && !s.stoppers[k].Asking? && s.stoppers[k].ids == ids && s.stoppers[k].i <= |ids|
    ensures var s' := Apply(s, step);
      && k in s'.stoppers && !s'.stoppers[k].Asking? && s'.stoppers[k].ids == ids && s'.stoppers[k].i <= |ids|
      && (m < |ids| && Passed(s'.stoppers[k], m, w) && !Passed(s.stoppers[k], m, w) ==> SettledAt(s', w, ids[m]))
  {
    hide Inv, Enabled, Apply, SettledAt;
    CallApply(s, step);
    var s' := Apply(s, step);
    if m < |ids| && Passed(s'.stoppers[k], m, w) && !Passed(s.stoppers[k], m, w) {
      if s.workers[w].jobID == ids[m] {
        AskedIsSettled(s', w, ids[m]);
      } else {
        OtherJobIsSettled(s, w, ids[m]);
        SameWorkersSettled(s, s', w, ids[m]);
      }
    }
  }

  lemma ScannedStep(s: Service, step: Step, k: nat, ids: seq<JobId>, p: PolicyId)
    requires Inv(s) && Enabled(s, step) && !step.Crash? && Off(s, p) && !TurnsOn(step, p)
    requires Scanned(s, k, ids) && JobsOf(s.rows, ids, p)
    ensures Scanned(Apply(s, step), k, ids)
  {
    var s' := Apply(s, step);
    PassedStep(s, step, k, ids, 0, 0);
    hide Inv, Enabled, Apply, SettledAt, Off, TurnsOn;
    forall m: nat, w: nat | m < |ids| && Passed(s'.stoppers[k], m, w) ensures SettledAt(s', w, ids[m]) {
      if Passed(s.stoppers[k], m, w) {
        SettledStep(s, step, w, ids[m]);
      } else {
        PassedStep(s, step, k, ids, m, w);
      }
    }
  }

  lemma OffStep(s: Service, step: Step, p: PolicyId)
    requires Enabled(s, step) && Off(s, p) && !TurnsOn(step, p)
    ensures Off(Apply(s, step), p)
  {
    hide Enabled, Apply;
    if ByStart(step) {
      StartFrame(s, step);
    } else if ByQueue(step) {
      QueueFrame(s, step);
    } else if ByWorker(step) {
      WorkerFrame(s, step);
    } else if step.SetEnabled? {
      StopApply(s, step);
    } else {
      StopFrame(s, step);
    }
  }

  /** Policy `p` is disabled at `a` and nobody enables it before `b`. */
  ghost predicate StaysOff(ss: seq<Service>, steps: seq<Step>, a: nat, b: nat, p: PolicyId) {
    && a <= b < |ss| && Off(ss[a], p)
    && forall m | a <= m < b && m < |steps| :: !TurnsOn(steps[m], p)
  }

  lemma {:induction false} OffUntil(ss: seq<Service>, steps: seq<Step>, a: nat, b: nat, p: PolicyId)
    requires Run(ss, steps) && StaysOff(ss, steps, a, b, p)
    ensures Off(ss[b], p)
  {
    hide Run, Enabled, Apply, Off, TurnsOn;
    if a < b {
      StepOf(ss, steps, b);
      OffUntil(ss, steps, a, b - 1, p);
      OffStep(ss[b - 1], steps[b - 1], p);
    }
  }

  lemma JobsUntil(ss: seq<Service>, steps: seq<Step>, a: nat, b: nat, ids: seq<JobId>, p: PolicyId)
    requires Run(ss, steps) && Init(ss[0]) && a <= b < |ss| && JobsOf(ss[a].rows, ids, p)
    ensures JobsOf(ss[b].rows, ids, p)
  {
    hide Run, Init;
    forall m | 0 <= m < |ids| ensures ids[m] in ss[b].rows && ss[b].rows[ids[m]].policy == p {
      TerminalIsForever(ss, steps, a, b, ids[m]);
    }
  }

  lemma {:induction false} ScannedUntil(ss: seq<Service>, steps: seq<Step>, a: nat, b: nat, k: nat, ids: seq<JobId>,
                                        p: PolicyId)
    requires Run(ss, steps) && Init(ss[0]) && StaysOff(ss, steps, a, b, p)
    requires forall m | a <= m < b && m < |steps| :: !steps[m].Crash?
    requires Scanned(ss[a], k, ids) && JobsOf(ss[a].rows, ids, p)
    ensures Scanned(ss[b], k, ids)
  {
    hide Run, Init, Inv, Enabled, Apply, Off, TurnsOn, Scanned, JobsOf;
    if a < b {
      ScannedUntil(ss, steps, a, b - 1, k, ids, p);
      StepOf(ss, steps, b);
      InvAlways(ss, steps, b - 1);
      OffUntil(ss, steps, a, b - 1, p);
      JobsUntil(ss, steps, a, b - 1, ids, p);
      ScannedStep(ss[b - 1], steps[b - 1], k, ids, p);
    }
  }

  lemma ScanStarts(s: Service, k: nat, ids: seq<JobId>, p: PolicyId, j: JobId)
    requires Enabled(s, Query(k, ids)) && s.stoppers[k] == Asking(p)
    requires j in s.rows && s.rows[j].policy == p && s.rows[j].status in {Pending, Running}
    ensures var s' := Apply(s, Query(k, ids)); j in ids && JobsOf(s'.rows, ids, p) && Scanned(s', k, ids)
  {
    hide SettledAt, EnterState, AfterLook, AfterRead;
  }

  lemma ScanIsOver(s: Service, k: nat, ids: seq<JobId>, j: JobId)
    requires Scanned(s, k, ids) && s.stoppers[k].i >= |ids| && j in ids
    ensures AllSettled(s, j)
  {
    hide SettledAt;
    var m :| 0 <= m < |ids| && ids[m] == j;
    forall w: nat ensures SettledAt(s, w, j) { assert Passed(s.stoppers[k], m, w); }
  }

  lemma RowIsKept(before: map<JobId, Row>, after: map<JobId, Row>, j: JobId)
    requires j in before && RowKept(before, after, j)
    ensures j in after && after[j].policy == before[j].policy
    ensures Terminal(before[j].status) ==> after[j] == before[j]
  {
  }

  /** The stop action for `p` queries at step `q` and is through with its list at `e`; in between
      the policy stays disabled and the service does not crash. Then every job that was pending or
      running at the query is settled. */
  lemma StopActionSettles(ss: seq<Service>, steps: seq<Step>, q: nat, e: nat, k: nat, ids: seq<JobId>, p: PolicyId,
                          j: JobId)
    requires Run(ss, steps) && Init(ss[0]) && q < e < |ss| && steps[q] == Query(k, ids)
    requires k in ss[q].stoppers && ss[q].stoppers[k] == Asking(p) && StaysOff(ss, steps, q, e, p)
    requires forall m | q <= m < e && m < |steps| :: !steps[m].Crash?
    requires k in ss[e].stoppers && ss[e].stoppers[k].Scanning? && ss[e].stoppers[k].i >= |ids|
    requires j in ss[q].rows && ss[q].rows[j].policy == p && ss[q].rows[j].status in {Pending, Running}
    ensures j in ss[e].rows && ss[e].rows[j].policy == p && Off(ss[e], p) && AllSettled(ss[e], j)
  {
    hide Run, Init, Off, TurnsOn, SettledAt, AllSettled, Enabled, Apply, Scanned, JobsOf, RowKept;
    StepOf(ss, steps, q + 1);
    OffUntil(ss, steps, q, q + 1, p);
    OffUntil(ss, steps, q, e, p);
    ScanStarts(ss[q], k, ids, p, j);
    ScannedUntil(ss, steps, q + 1, e, k, ids, p);
    TerminalIsForever(ss, steps, q, e, j);
    RowIsKept(ss[q].rows, ss[e].rows, j);
    ScanIsOver(ss[e], k, ids, j);
  }

  lemma {:induction false} SettledUntil(ss: seq<Service>, steps: seq<Step>, a: nat, b: nat, j: JobId)
    requires Run(ss, steps) && Init(ss[0]) && a < |ss| && j in ss[a].rows && AllSettled(ss[a], j)
    requires StaysOff(ss, steps, a, b, ss[a].rows[j].policy)
    ensures b < |ss| && j in ss[b].rows && ss[b].rows[j].policy == ss[a].rows[j].policy
    ensures AllSettled(ss[b], j) && Off(ss[b], ss[b].rows[j].policy) && Inv(ss[b])
  {
    hide Run, Init, Inv, Enabled, Apply, Off, TurnsOn, SettledAt, RowKept;
    InvAlways(ss, steps, b);
    TerminalIsForever(ss, steps, a, b, j);
    RowIsKept(ss[a].rows, ss[b].rows, j);
    OffUntil(ss, steps, a, b, ss[a].rows[j].policy);
    if a < b {
      SettledUntil(ss, steps, a, b - 1, j);
      StepOf(ss, steps, b);
      forall w: nat ensures SettledAt(ss[b], w, j) { SettledStep(ss[b - 1], steps[b - 1], w, j); }
    }
  }

  /** Worker `w` is about to enter a working state for job `j`. */
  predicate Ready(s: Service, w: nat, j: JobId) {
    At(s, w) && s.workers[w].stage.Entering? && s.workers[w].stage.job == j && Working(s.workers[w].stage.n)
  }

  /** The step starts a working handler for job `j`. */
  predicate Works(s: Service, step: Step, j: JobId) {
    step.Enter? && Ready(s, step.w, j)
  }

  ghost predicate SomeReady(s: Service, j: JobId) {
    exists w: nat :: Ready(s, w, j)
  }

  ghost function WorkingSteps(ss: seq<Service>, steps: seq<Step>, a: nat, b: nat, j: JobId): nat
    requires a <= b < |ss| && |ss| == |steps| + 1
  {
    if a == b then 0
    else WorkingSteps(ss, steps, a, b - 1, j) + if Works(ss[b - 1], steps[b - 1], j) then 1 else 0
  }

  /** The step leaves worker `w` as it was, or has nothing ready for `j` at it. */
  predicate StillReady(s: Service, step: Step, w: nat, j: JobId) {
    Ready(s, w, j) && !(step.Enter? && step.w == w)
  }

  lemma ReadyOwn(s: Service, step: Step, j: JobId)
    requires Enabled(s, step) && ByWorker(step) && !step.Enter? && !step.Look?
    requires j in s.rows && Off(s, s.rows[j].policy)
    ensures !Ready(Apply(s, step), step.w, j)
  {
    hide Enabled, Apply, Legal, TableOf, EnterState, LookAt, SetStatus, Answers;
    OwnApply(s, step);
  }

  lemma ReadyEntered(s: Service, step: Step, j: JobId)
    requires Enabled(s, step) && step.Enter?
    ensures !Ready(Apply(s, step), step.w, j)
  {
    hide Enabled, Apply, Legal, TableOf, EnterState;
    OwnApply(s, step);
    EnterLeads(s, step.w, step.o);
  }

  lemma ReadyLooked(s: Service, step: Step, j: JobId)
    requires Inv(s) && Enabled(s, step) && step.Look? && SettledAt(s, step.w, j)
    ensures !Ready(Apply(s, step), step.w, j)
  {
    hide Inv, Enabled, Apply, Legal, TableOf, Targets, Only;
    OwnApply(s, step);
    SoundAt(s, step.w);
  }

  /** A worker that is ready was ready before: no settled job gets one more handler to run. */
  lemma ReadyStep(s: Service, step: Step, w: nat, j: JobId)
    requires Inv(s) && Enabled(s, step) && j in s.rows && Off(s, s.rows[j].policy)
    requires SettledAt(s, w, j) && Ready(Apply(s, step), w, j)
    ensures StillReady(s, step, w, j)
  {
    hide Inv, Enabled, Apply, Off, SettledAt, Stops;
    if !(ByWorker(step) && step.w == w) {
      OthersTouch(s, step, w);
    } else if step.Enter? {
      ReadyEntered(s, step, j);
    } else if step.Look? {
      ReadyLooked(s, step, j);
    } else {
      ReadyOwn(s, step, j);
    }
  }

  lemma OnlyOneReady(s: Service, step: Step, w: nat, j: JobId)
    requires Inv(s) && Ready(s, w, j) && Works(s, step, j)
    ensures step.w == w
  {
    WorkerCarries(s, w);
    hide Known, OnePlace, AllSound, Counted, RunningHeld;
    if w < step.w { DifferentJobs(s, w, step.w); } else if step.w < w { DifferentJobs(s, step.w, w); }
  }

  /** A settled job starts at most one more working handler, however long the service runs on,
      crashes included, as long as its policy stays disabled. */
  lemma {:induction false} AtMostOneMoreHandler(ss: seq<Service>, steps: seq<Step>, a: nat, b: nat, j: JobId)
    requires Run(ss, steps) && Init(ss[0]) && a < |ss| && j in ss[a].rows && AllSettled(ss[a], j)
    requires StaysOff(ss, steps, a, b, ss[a].rows[j].policy)
    ensures |ss| == |steps| + 1 && a <= b < |ss|
    ensures WorkingSteps(ss, steps, a, b, j) + (if SomeReady(ss[b], j) then 1 else 0) <= 1
  {
    hide Init, Inv, Enabled, Apply, Off, TurnsOn, SettledAt, Ready;
    if a < b {
      AtMostOneMoreHandler(ss, steps, a, b - 1, j);
      SettledUntil(ss, steps, a, b - 1, j);
      StepOf(ss, steps, b);
      hide Run, StaysOff;
      var s, step := ss[b - 1], steps[b - 1];
      if w: nat :| Ready(ss[b], w, j) {
        ReadyStep(s, step, w, j);
        if Works(s, step, j) { OnlyOneReady(s, step, w, j); }
      }
    }
  }

  /** The job waits to be read by a worker, or is about to be canceled. */
  predicate Waning(s: Service, w: nat, j: JobId) {
    At(s, w) && JobAt(s.workers[w].stage) == Item(j) ==>
      s.workers[w].stage.Taken? || s.workers[w].stage.Reading? || s.workers[w].stage.Canceling?
  }

  /** No worker has the job past Reset. */
  ghost predicate AllWaning(s: Service, j: JobId) {
    forall w: nat :: Waning(s, w, j)
  }

  lemma WaningOwn(s: Service, step: Step, j: JobId)
    requires Enabled(s, step) && ByWorker(step) && j in s.rows && Off(s, s.rows[j].policy) && Waning(s, step.w, j)
    ensures Waning(Apply(s, step), step.w, j)
  {
    hide Enabled, Apply, Legal, TableOf, LookAt, EnterState, SetStatus, Answers;
    OwnApply(s, step);
    if step.Enter? {
      EnterTouches(s, step.w, step.o);
      EnterLeads(s, step.w, step.o);
    }
  }

  lemma WaningStep(s: Service, step: Step, w: nat, j: JobId)
    requires Enabled(s, step) && j in s.rows && Off(s, s.rows[j].policy) && Waning(s, w, j)
    ensures Waning(Apply(s, step), w, j)
  {
    hide Enabled, Apply, Off, Stops;
    if ByWorker(step) && step.w == w { WaningOwn(s, step, j); } else { OthersTouch(s, step, w); }
  }

  lemma WaningWritten(s: Service, step: Step, j: JobId)
    requires Enabled(s, step) && (step.Enter? || step.Finish?) && j in s.rows && Waning(s, step.w, j)
    ensures var rows := Apply(s, step).rows; j in rows && rows[j].status in {s.rows[j].status, Canceled}
  {
    hide Enabled, Apply, EnterState;
    OwnApply(s, step);
    if step.Enter? { EnterWrites(s, step.w, step.o); }
  }

  lemma WaningReset(s: Service, step: Step, j: JobId)
    requires Enabled(s, step) && (step.ResetRunning? || step.Post?) && j in s.rows && s.rows[j].status != Running
    ensures j in Apply(s, step).rows && Apply(s, step).rows[j] == s.rows[j]
  {
    assert Apply(s, step) == if step.Post? then ApplyQueue(s, step) else ApplyStart(s, step);
    hide Enabled, Apply;
  }

  lemma WaningRow(s: Service, step: Step, j: JobId)
    requires Enabled(s, step) && j in s.rows && s.rows[j].status in {Pending, Retrying, Canceled}
    requires AllWaning(s, j)
    ensures var rows := Apply(s, step).rows; j in rows && rows[j].status in {s.rows[j].status, Canceled}
  {
    hide Enabled, Apply, Waning;
    if step.Enter? || step.Finish? {
      assert Waning(s, step.w, j);
      WaningWritten(s, step, j);
    } else if step.ResetRunning? || step.Post? {
      WaningReset(s, step, j);
    } else if ByStart(step) {
      StartFrame(s, step);
    } else if ByQueue(step) {
      QueueFrame(s, step);
    } else if ByWorker(step) {
      WorkerFrame(s, step);
    } else {
      StopFrame(s, step);
    }
  }

  /** A job nobody has past Reset when its policy is disabled is never run: it keeps waiting until
      it is canceled at its next Reset. */
  lemma {:induction false} WaningEndsCanceled(ss: seq<Service>, steps: seq<Step>, a: nat, b: nat, j: JobId)
    requires Run(ss, steps) && Init(ss[0]) && a < |ss| && j in ss[a].rows
    requires ss[a].rows[j].status in {Pending, Retrying} && AllWaning(ss[a], j)
    requires StaysOff(ss, steps, a, b, ss[a].rows[j].policy)
    ensures b < |ss| && j in ss[b].rows && ss[b].rows[j].status in {ss[a].rows[j].status, Canceled}
    ensures AllWaning(ss[b], j)
  {
    hide Run, Init, Inv, Enabled, Apply, Off, TurnsOn, Waning, RowKept;
    if a < b {
      WaningEndsCanceled(ss, steps, a, b - 1, j);
      StepOf(ss, steps, b);
      InvAlways(ss, steps, b - 1);
      OffUntil(ss, steps, a, b - 1, ss[a].rows[j].policy);
      TerminalIsForever(ss, steps, a, b - 1, j);
      RowIsKept(ss[a].rows, ss[b - 1].rows, j);
      hide StaysOff;
      forall w: nat ensures Waning(ss[b], w, j) { WaningStep(ss[b - 1], steps[b - 1], w, j); }
      WaningRow(ss[b - 1], steps[b - 1], j);
    }
  }

  lemma RetryWrites(s: Service, w: nat, o: Outcome, j: JobId)
    requires Inv(s) && At(s, w) && s.workers[w].stage.Entering?
    requires s.workers[w].stage.job == j && s.workers[w].stage.n == Retrying
    ensures var s' := EnterState(s, w, o);
      && j in s.rows && s'.rows == s.rows[j := s.rows[j].(status := Retrying)]
      && s'.workers == s.workers[w := s.workers[w].(stage := Offering)]
  {
    hide Inv, TableOf;
    SoundAt(s, w);
  }

  lemma RetryIsWaning(s: Service, w: nat, o: Outcome, j: JobId)
    requires Inv(s) && At(s, w) && s.workers[w].stage.Entering?
    requires s.workers[w].stage.job == j && s.workers[w].stage.n == Retrying
    ensures var s' := EnterState(s, w, o);
      && j in s.rows && s'.rows == s.rows[j := s.rows[j].(status := Retrying)]
      && AllWaning(s', j)
  {
    RetryWrites(s, w, o, j);
    WorkerCarries(s, w);
    hide Known, OnePlace, AllSound, Counted, RunningHeld, EnterState;
    var s' := EnterState(s, w, o);
    forall v: nat ensures Waning(s', v, j) {
      if v < w && JobAt(s.workers[v].stage).Item? { DifferentJobs(s, v, w); }
      if w < v && At(s, v) { DifferentJobs(s, w, v); }
    }
  }

  /** The step takes the job through Reset, and there to `canceled`. */
  ghost predicate TowardsCanceled(s: Service, step: Step, j: JobId)
    requires Enabled(s, step) && ByWorker(step)
  {
    var s' := Apply(s, step);
    At(s, step.w) && At(s', step.w) && j in s'.rows &&
    match s.workers[step.w].stage
    case Taken(_) => s'.workers[step.w].stage == Reading(j)
    case Reading(_) => s'.workers[step.w].stage == Stage.Canceling(j)
    case Canceling(_) => s'.rows[j].status == Canceled
    case _ => false
  }

  lemma WaningOnward(s: Service, step: Step, j: JobId)
    requires Enabled(s, step) && ByWorker(step) && j in s.rows && Off(s, s.rows[j].policy) && Waning(s, step.w, j)
    requires JobAt(s.workers[step.w].stage) == Item(j)
    ensures TowardsCanceled(s, step, j)
  {
    hide Enabled, Apply, EnterState, AfterLook, Answers;
    OwnApply(s, step);
  }

  /** The step that enters `retrying` leaves the job with nobody past Reset. */
  lemma RetryStarts(ss: seq<Service>, steps: seq<Step>, a: nat, w: nat, o: Outcome, j: JobId)
    requires Run(ss, steps) && Init(ss[0]) && a + 1 < |ss| && |ss| == |steps| + 1 && steps[a] == Enter(w, o)
    requires At(ss[a], w) && ss[a].workers[w].stage.Entering? && ss[a].workers[w].stage.job == j
    requires ss[a].workers[w].stage.n == Retrying
    ensures j in ss[a].rows && j in ss[a + 1].rows && ss[a + 1].rows[j] == ss[a].rows[j].(status := Retrying)
    ensures AllWaning(ss[a + 1], j)
  {
    hide Run, Init, Inv, Enabled, Apply, Waning, EnterState;
    InvAlways(ss, steps, a);
    StepOf(ss, steps, a + 1);
    RetryIsWaning(ss[a], w, o, j);
    OwnApply(ss[a], steps[a]);
    assert ss[a + 1] == EnterState(ss[a], w, o);
  }

  /** The next step of the worker that has such a job, whichever it is, takes it on towards `canceled`. */
  ghost predicate OnlyTowardsCanceled(s: Service, j: JobId) {
    forall step | ByWorker(step) && Enabled(s, step) && At(s, step.w) && JobAt(s.workers[step.w].stage) == Item(j) ::
      TowardsCanceled(s, step, j)
  }

  lemma WaningLeads(s: Service, j: JobId)
    requires j in s.rows && Off(s, s.rows[j].policy) && AllWaning(s, j)
    ensures OnlyTowardsCanceled(s, j)
  {
    hide Enabled, Off, Waning, TowardsCanceled;
    forall step | ByWorker(step) && Enabled(s, step) && At(s, step.w) && JobAt(s.workers[step.w].stage) == Item(j)
      ensures TowardsCanceled(s, step, j)
    {
      assert Waning(s, step.w, j);
      WaningOnward(s, step, j);
    }
  }

  /** A job that lands in `retrying` under a disabled policy is `retrying` or `canceled` ever after, and
      every step of a worker that has it takes it to `canceled`, from Take over Reset to the status. */
  lemma RetryingEndsCanceled(ss: seq<Service>, steps: seq<Step>, a: nat, b: nat, w: nat, o: Outcome, j: JobId)
    requires Run(ss, steps) && Init(ss[0]) && a + 1 < |ss| && |ss| == |steps| + 1 && steps[a] == Enter(w, o)
    requires At(ss[a], w) && ss[a].workers[w].stage.Entering? && ss[a].workers[w].stage.job == j
    requires ss[a].workers[w].stage.n == Retrying
    requires j in ss[a].rows && StaysOff(ss, steps, a + 1, b, ss[a].rows[j].policy)
    ensures b < |ss| && j in ss[b].rows && ss[b].rows[j].status in {Retrying, Canceled}
    ensures AllWaning(ss[b], j)
    ensures OnlyTowardsCanceled(ss[b], j)
  {
    RetryStarts(ss, steps, a, w, o, j);
    hide Run, Init, Inv, Enabled, Apply, Waning, OnlyTowardsCanceled, RowKept, Off, TurnsOn;
    WaningEndsCanceled(ss, steps, a + 1, b, j);
    OffUntil(ss, steps, a + 1, b, ss[a].rows[j].policy);
    TerminalIsForever(ss, steps, a + 1, b, j);
    RowIsKept(ss[a + 1].rows, ss[b].rows, j);
    WaningLeads(ss[b], j);
  }
}
