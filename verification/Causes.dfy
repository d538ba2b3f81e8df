/** No job is stopped, canceled, finished, given up or retried without a cause. */
module Causes {
  import opened States
  import opened JobService
  import opened Carriers
  import opened Guarantees
  import opened StopAction

  /** Worker `w` is on its way to entering `stopped` with job `j`, or its machine is asked to. */
  predicate Stopping(s: Service, w: nat, j: JobId) {
    At(s, w) &&
    match s.workers[w].stage
    case Clearing(i, _) => i == j
    case Looping(i, _, n) => i == j && (n == Stopped || s.workers[w].desired == Stopped)
    case Entering(i, _, n) => i == j && (n == Stopped || s.workers[w].desired == Stopped)
    case Reading(i) => i == j && s.workers[w].desired == Stopped
    case _ => false
  }

  /** Where the look at the desired state leads. */
  lemma LookLeads(s: Service, w: nat)
    requires Inv(s) && At(s, w) && s.workers[w].stage.Looping?
    ensures var Looping(j, cur, n) := s.workers[w].stage;
      && j in s.rows
      && var stage := AfterLook(s.rows[j].operation, s.workers[w]);
        if s.workers[w].desired != NoState then s.workers[w].desired == Stopped && stage == Clearing(j, cur)
        else if n == Continue then stage.Looping? && stage.job == j && stage.n in {Initialize, State.Delete}
        else stage == Entering(j, cur, n)
  {
    hide Inv, Legal, Targets, TRANSFER_TABLE, DELETE_TABLE, Unfinished;
    SoundAt(s, w);
    OneTargetOfRunning();
  }

  /** Entering a state does not make up a stop. */
  lemma StoppingEntered(s: Service, step: Step, j: JobId)
    requires Enabled(s, step) && step.Enter? && Stopping(Apply(s, step), step.w, j)
    ensures Stopping(s, step.w, j)
  {
    hide Enabled, Apply, Legal, TableOf, EnterState;
    OwnApply(s, step);
    EnterTouches(s, step.w, step.o);
    EnterLeads(s, step.w, step.o);
  }

  lemma StoppingLooked(s: Service, step: Step, j: JobId)
    requires Inv(s) && Enabled(s, step) && step.Look? && Stopping(Apply(s, step), step.w, j)
    ensures Stopping(s, step.w, j)
  {
    hide Inv, Enabled, Apply, AfterLook;
    OwnApply(s, step);
    LookLeads(s, step.w);
  }

  lemma StoppingHandled(s: Service, step: Step, j: JobId)
    requires Enabled(s, step) && (step.Take? || step.Read? || step.Finish? || step.Clear?)
    requires Stopping(Apply(s, step), step.w, j)
    ensures Stopping(s, step.w, j)
  {
    OwnApply(s, step);
    hide Enabled, Apply, EnterState, AfterLook, SetStatus, Answers;
  }

  /** The step is a call of Stop for job `j` on worker `w`, whose machine has this job and works on it. */
  ghost predicate StopsIt(s: Service, step: Step, w: nat, j: JobId) {
    Stops(s, step, w, j) && At(s, w) && s.workers[w].jobID == j && JobAt(s.workers[w].stage) == Item(j)
  }

  lemma StoppingElsewhere(s: Service, step: Step, w: nat, j: JobId)
    requires Inv(s) && Enabled(s, step) && !(ByWorker(step) && step.w == w) && Stopping(Apply(s, step), w, j)
    ensures Stopping(s, w, j) || StopsIt(s, step, w, j)
  {
    hide Inv, Enabled, Apply, Legal, TableOf, Stops;
    OthersTouch(s, step, w);
    if At(s, w) { SoundAt(s, w); }
  }

  lemma StoppingStep(s: Service, step: Step, w: nat, j: JobId)
    requires Inv(s) && Enabled(s, step) && Stopping(Apply(s, step), w, j)
    ensures Stopping(s, w, j) || StopsIt(s, step, w, j)
  {
    hide Inv, Enabled, Apply, StopsIt, Stopping;
    if !(ByWorker(step) && step.w == w) {
      StoppingElsewhere(s, step, w, j);
    } else if step.Enter? {
      StoppingEntered(s, step, j);
    } else if step.Look? {
      StoppingLooked(s, step, j);
    } else {
      StoppingHandled(s, step, j);
    }
  }

  /** Worker `w` writes `status` for job `j` in this step. */
  predicate Ends(s: Service, step: Step, j: JobId, status: State) {
    && ByWorker(step) && At(s, step.w) &&
    match s.workers[step.w].stage
    case Canceling(i) => step.Finish? && i == j && status == Canceled
    case Failing(i) => step.Finish? && i == j && status == Error
    case Entering(i, _, n) => step.Enter? && i == j && status == n
    case _ => false
  }

  lemma StatusWrittenAlone(rows: map<JobId, Row>, i: JobId, status: State, j: JobId)
    requires j in SetStatus(rows, i, status)
    ensures var after := SetStatus(rows, i, status);
      j in rows && (after[j] == rows[j] || (i == j && after[j].status == status))
  {
  }

  lemma EndWritten(s: Service, step: Step, j: JobId)
    requires Enabled(s, step) && (step.Finish? || step.Enter?) && j in Apply(s, step).rows
    ensures var status := Apply(s, step).rows[j].status;
      j in s.rows && (s.rows[j].status == status || Ends(s, step, j, status))
  {
    OwnApply(s, step);
    hide Enabled, Apply, EnterState, SetStatus;
    var stage := s.workers[step.w].stage;
    if step.Enter? {
      EnterWrites(s, step.w, step.o);
      if Apply(s, step).rows != s.rows { StatusWrittenAlone(s.rows, stage.job, stage.n, j); }
    } else {
      StatusWrittenAlone(s.rows, stage.job, if stage.Canceling? then Canceled else Error, j);
    }
  }

  lemma EndPosted(s: Service, step: Step, j: JobId)
    requires Enabled(s, step) && (step.ResetRunning? || step.Post?) && j in Apply(s, step).rows
    ensures Terminal(Apply(s, step).rows[j].status) ==> j in s.rows && s.rows[j].status == Apply(s, step).rows[j].status
  {
    assert Apply(s, step) == if step.Post? then ApplyQueue(s, step) else ApplyStart(s, step);
    hide Enabled, Apply;
  }

  /** A job gets a status it keeps only from the worker that has it. */
  lemma EndComes(s: Service, step: Step, j: JobId)
    requires Enabled(s, step) && j in Apply(s, step).rows && Terminal(Apply(s, step).rows[j].status)
    ensures var status := Apply(s, step).rows[j].status;
      j in s.rows && (s.rows[j].status == status || Ends(s, step, j, status))
  {
    hide Enabled, Apply, Ends;
    if step.Finish? || step.Enter? {
      EndWritten(s, step, j);
    } else if step.ResetRunning? || step.Post? {
      EndPosted(s, step, j);
    } else if ByStart(step) {
      StartFrame(s, step);
    } else if ByQueue(step) {
      QueueFrame(s, step);
    } else if ByWorker(step) {
      WorkerFrame(s, step);
    } else {
      StopFrame(s, step);
    }
  }

  lemma BecomesStopped(s: Service, step: Step, j: JobId)
    requires Enabled(s, step) && j in Apply(s, step).rows && Apply(s, step).rows[j].status == Stopped
    ensures (j in s.rows && s.rows[j].status == Stopped) || (step.Enter? && Stopping(s, step.w, j))
  {
    hide Enabled, Apply;
    EndComes(s, step, j);
  }

  /** The Stop call behind a worker that is about to stop a job. */
  lemma {:induction false} StoppingIsAsked(ss: seq<Service>, steps: seq<Step>, i: nat, w: nat, j: JobId)
    returns (k: nat)
    requires Run(ss, steps) && Init(ss[0]) && i < |ss| && Stopping(ss[i], w, j)
    ensures k < i && k < |steps| && StopsIt(ss[k], steps[k], w, j)
  {
    hide Run, Inv, Enabled, Apply, StopsIt;
    assert i > 0;
    hide Stopping;
    InvAlways(ss, steps, i - 1);
    StepOf(ss, steps, i);
    StoppingStep(ss[i - 1], steps[i - 1], w, j);
    if StopsIt(ss[i - 1], steps[i - 1], w, j) { k := i - 1; } else { k := StoppingIsAsked(ss, steps, i - 1, w, j); }
  }

  /** A job ends as stopped only if Stop was called for it on a worker that had it then. */
  lemma {:induction false} StoppedOnRequest(ss: seq<Service>, steps: seq<Step>, i: nat, j: JobId)
    returns (k: nat, w: nat)
    requires Run(ss, steps) && Init(ss[0]) && i < |ss|
    requires j in ss[i].rows && ss[i].rows[j].status == Stopped
    requires j in ss[0].rows ==> ss[0].rows[j].status != Stopped
    ensures k < i && k < |steps| && StopsIt(ss[k], steps[k], w, j)
  {
    hide Run, Init, Inv, Enabled, Apply, StopsIt, Stopping;
    InvAlways(ss, steps, i - 1);
    StepOf(ss, steps, i);
    BecomesStopped(ss[i - 1], steps[i - 1], j);
    if steps[i - 1].Enter? && Stopping(ss[i - 1], steps[i - 1].w, j) {
      w := steps[i - 1].w;
      k := StoppingIsAsked(ss, steps, i - 1, w, j);
    } else {
      k, w := StoppedOnRequest(ss, steps, i - 1, j);
    }
  }

  predicate Canceling(s: Service, w: nat, j: JobId) {
    At(s, w) && s.workers[w].stage == Stage.Canceling(j)
  }

  /** The step reads the rows of job `j` while its policy is disabled. */
  predicate ReadsOff(s: Service, step: Step, j: JobId) {
    && step.Read? && At(s, step.w) && s.workers[step.w].stage == Reading(j)
    && j in s.rows && Off(s, s.rows[j].policy)
  }

  lemma CancelingOwn(s: Service, step: Step, j: JobId)
    requires Enabled(s, step) && ByWorker(step) && Canceling(Apply(s, step), step.w, j)
    ensures ReadsOff(s, step, j)
  {
    hide Enabled, Apply, Legal, TableOf, LookAt, EnterState, SetStatus, Answers;
    OwnApply(s, step);
    if step.Enter? {
      EnterTouches(s, step.w, step.o);
      EnterLeads(s, step.w, step.o);
    }
  }

  lemma CancelingStep(s: Service, step: Step, w: nat, j: JobId)
    requires Enabled(s, step) && Canceling(Apply(s, step), w, j)
    ensures Canceling(s, w, j) || ReadsOff(s, step, j)
  {
    hide Enabled, Apply, ReadsOff, Stops;
    if ByWorker(step) && step.w == w { CancelingOwn(s, step, j); } else { OthersTouch(s, step, w); }
  }

  lemma BecomesCanceled(s: Service, step: Step, j: JobId)
    requires Inv(s) && Enabled(s, step) && j in Apply(s, step).rows && Apply(s, step).rows[j].status == Canceled
    ensures (j in s.rows && s.rows[j].status == Canceled) || (step.Finish? && Canceling(s, step.w, j))
  {
    hide Inv, Enabled, Apply, Legal, TableOf;
    EndComes(s, step, j);
    if ByWorker(step) && At(s, step.w) { SoundAt(s, step.w); }
  }

  lemma {:induction false} CancelingReadOff(ss: seq<Service>, steps: seq<Step>, i: nat, w: nat, j: JobId)
    returns (k: nat)
    requires Run(ss, steps) && Init(ss[0]) && i < |ss| && Canceling(ss[i], w, j)
    ensures k < i && k < |steps| && ReadsOff(ss[k], steps[k], j)
  {
    hide Run, Inv, Enabled, Apply, ReadsOff;
    assert i > 0;
    InvAlways(ss, steps, i - 1);
    StepOf(ss, steps, i);
    CancelingStep(ss[i - 1], steps[i - 1], w, j);
    if ReadsOff(ss[i - 1], steps[i - 1], j) { k := i - 1; } else { k := CancelingReadOff(ss, steps, i - 1, w, j); }
  }

  /** A job ends as canceled only if its policy was disabled when a worker read it. */
  lemma {:induction false} CanceledWhenOff(ss: seq<Service>, steps: seq<Step>, i: nat, j: JobId) returns (k: nat)
    requires Run(ss, steps) && Init(ss[0]) && i < |ss|
    requires j in ss[i].rows && ss[i].rows[j].status == Canceled
    requires j in ss[0].rows ==> ss[0].rows[j].status != Canceled
    ensures k < i && k < |steps| && ReadsOff(ss[k], steps[k], j)
  {
    hide Run, Init, Inv, Enabled, Apply, Canceling, ReadsOff;
    InvAlways(ss, steps, i - 1);
    StepOf(ss, steps, i);
    BecomesCanceled(ss[i - 1], steps[i - 1], j);
    if steps[i - 1].Finish? && Canceling(ss[i - 1], steps[i - 1].w, j) {
      k := CancelingReadOff(ss, steps, i - 1, steps[i - 1].w, j);
    } else {
      k := CanceledWhenOff(ss, steps, i - 1, j);
    }
  }

  /** Worker `w` is on its way to entering `finished` with job `j`. */
  predicate Finishing(s: Service, w: nat, j: JobId) {
    At(s, w) &&
    match s.workers[w].stage
    case Looping(i, _, n) => i == j && n == Finished
    case Entering(i, _, n) => i == j && n == Finished
    case _ => false
  }

  /** A handler of job `j` answers that the work is done. */
  predicate SaysFinished(s: Service, step: Step, j: JobId) {
    && step.Enter? && At(s, step.w) && s.workers[step.w].stage.Entering? && s.workers[step.w].stage.job == j
    && step.o == Go(Finished)
  }

  lemma FinishingEntered(s: Service, step: Step, j: JobId)
    requires Enabled(s, step) && step.Enter? && Finishing(Apply(s, step), step.w, j)
    ensures SaysFinished(s, step, j)
  {
    hide Enabled, Apply, Legal, TableOf, EnterState;
    OwnApply(s, step);
    EnterTouches(s, step.w, step.o);
    EnterLeads(s, step.w, step.o);
  }

  lemma FinishingLooked(s: Service, step: Step, j: JobId)
    requires Inv(s) && Enabled(s, step) && step.Look? && Finishing(Apply(s, step), step.w, j)
    ensures Finishing(s, step.w, j)
  {
    hide Inv, Enabled, Apply, AfterLook;
    OwnApply(s, step);
    LookLeads(s, step.w);
  }

  lemma FinishingHandled(s: Service, step: Step, j: JobId)
    requires Enabled(s, step) && (step.Take? || step.Read? || step.Finish? || step.Clear?)
    ensures !Finishing(Apply(s, step), step.w, j)
  {
    OwnApply(s, step);
    hide Enabled, Apply, EnterState, AfterLook, SetStatus, Answers;
  }

  lemma FinishingStep(s: Service, step: Step, w: nat, j: JobId)
    requires Inv(s) && Enabled(s, step) && Finishing(Apply(s, step), w, j)
    ensures Finishing(s, w, j) || SaysFinished(s, step, j)
  {
    hide Inv, Enabled, Apply, SaysFinished, Stops;
    if !(ByWorker(step) && step.w == w) {
      OthersTouch(s, step, w);
    } else if step.Enter? {
      FinishingEntered(s, step, j);
    } else if step.Look? {
      FinishingLooked(s, step, j);
    } else {
      FinishingHandled(s, step, j);
    }
  }

  lemma BecomesFinished(s: Service, step: Step, j: JobId)
    requires Enabled(s, step) && j in Apply(s, step).rows && Apply(s, step).rows[j].status == Finished
    ensures (j in s.rows && s.rows[j].status == Finished) || (step.Enter? && Finishing(s, step.w, j))
  {
    hide Enabled, Apply;
    EndComes(s, step, j);
  }

  lemma {:induction false} FinishingIsAnswered(ss: seq<Service>, steps: seq<Step>, i: nat, w: nat, j: JobId)
    returns (k: nat)
    requires Run(ss, steps) && Init(ss[0]) && i < |ss| && Finishing(ss[i], w, j)
    ensures k < i && k < |steps| && SaysFinished(ss[k], steps[k], j)
  {
    hide Run, Inv, Enabled, Apply, SaysFinished;
    assert i > 0;
    InvAlways(ss, steps, i - 1);
    StepOf(ss, steps, i);
    FinishingStep(ss[i - 1], steps[i - 1], w, j);
    if SaysFinished(ss[i - 1], steps[i - 1], j) {
      k := i - 1;
    } else {
      k := FinishingIsAnswered(ss, steps, i - 1, w, j);
    }
  }

  /** A job ends as finished only if one of its handlers said so. */
  lemma {:induction false} FinishedOnAnswer(ss: seq<Service>, steps: seq<Step>, i: nat, j: JobId) returns (k: nat)
    requires Run(ss, steps) && Init(ss[0]) && i < |ss|
    requires j in ss[i].rows && ss[i].rows[j].status == Finished
    requires j in ss[0].rows ==> ss[0].rows[j].status != Finished
    ensures k < i && k < |steps| && SaysFinished(ss[k], steps[k], j)
  {
    hide Run, Init, Inv, Enabled, Apply, Finishing, SaysFinished;
    InvAlways(ss, steps, i - 1);
    StepOf(ss, steps, i);
    BecomesFinished(ss[i - 1], steps[i - 1], j);
    if steps[i - 1].Enter? && Finishing(ss[i - 1], steps[i - 1].w, j) {
      k := FinishingIsAnswered(ss, steps, i - 1, steps[i - 1].w, j);
    } else {
      k := FinishedOnAnswer(ss, steps, i - 1, j);
    }
  }

  /** Worker `w` is about to give up job `j`: its Reset has failed, or its machine enters `error`. */
  predicate GivingUp(s: Service, w: nat, j: JobId) {
    At(s, w) &&
    match s.workers[w].stage
    case Failing(i) => i == j
    case Looping(i, _, n) => i == j && n == Error
    case Entering(i, _, n) => i == j && n == Error
    case _ => false
  }

  /** The step reads the rows of job `j`, and its policy is missing, or the policy is enabled and the
      operation unknown or the target not to be read. */
  predicate ReadsBad(s: Service, step: Step, j: JobId) {
    && step.Read? && At(s, step.w) && s.workers[step.w].stage == Reading(j) && j in s.rows
    && var p := s.rows[j].policy;
      p !in s.enabled || (s.enabled[p] && (!step.loadable || s.rows[j].operation.Unsupported?))
  }

  /** A handler of job `j` answers with an error. */
  predicate SaysError(s: Service, step: Step, j: JobId) {
    && step.Enter? && At(s, step.w) && s.workers[step.w].stage.Entering? && s.workers[step.w].stage.job == j
    && step.o.Fail?
  }

  lemma GivingUpEntered(s: Service, step: Step, j: JobId)
    requires Inv(s) && Enabled(s, step) && step.Enter? && GivingUp(Apply(s, step), step.w, j)
    ensures GivingUp(s, step.w, j) || SaysError(s, step, j)
  {
    hide Inv, Enabled, Apply, Legal, TableOf, EnterState;
    OwnApply(s, step);
    SoundAt(s, step.w);
    EnterTouches(s, step.w, step.o);
    EnterFails(s, step.w, step.o);
  }

  lemma GivingUpLooked(s: Service, step: Step, j: JobId)
    requires Inv(s) && Enabled(s, step) && step.Look? && GivingUp(Apply(s, step), step.w, j)
    ensures GivingUp(s, step.w, j)
  {
    hide Inv, Enabled, Apply, AfterLook;
    OwnApply(s, step);
    LookLeads(s, step.w);
  }

  lemma GivingUpRead(s: Service, step: Step, j: JobId)
    requires Inv(s) && Enabled(s, step) && step.Read? && GivingUp(Apply(s, step), step.w, j)
    ensures ReadsBad(s, step, j)
  {
    hide Inv, Enabled, Apply, Legal, TableOf, EnterState, LookAt, SetStatus, Answers;
    OwnApply(s, step);
    SoundAt(s, step.w);
  }

  lemma GivingUpHandled(s: Service, step: Step, j: JobId)
    requires Enabled(s, step) && (step.Take? || step.Finish? || step.Clear?)
    ensures !GivingUp(Apply(s, step), step.w, j)
  {
    OwnApply(s, step);
    hide Enabled, Apply, EnterState, AfterLook, SetStatus, Answers;
  }

  lemma GivingUpStep(s: Service, step: Step, w: nat, j: JobId)
    requires Inv(s) && Enabled(s, step) && GivingUp(Apply(s, step), w, j)
    ensures GivingUp(s, w, j) || ReadsBad(s, step, j) || SaysError(s, step, j)
  {
    hide Inv, Enabled, Apply, SaysError, ReadsBad, Stops;
    if !(ByWorker(step) && step.w == w) {
      OthersTouch(s, step, w);
    } else if step.Enter? {
      GivingUpEntered(s, step, j);
    } else if step.Look? {
      GivingUpLooked(s, step, j);
    } else if step.Read? {
      GivingUpRead(s, step, j);
    } else {
      GivingUpHandled(s, step, j);
    }
  }

  lemma BecomesError(s: Service, step: Step, j: JobId)
    requires Enabled(s, step) && j in Apply(s, step).rows && Apply(s, step).rows[j].status == Error
    ensures (j in s.rows && s.rows[j].status == Error) || (ByWorker(step) && GivingUp(s, step.w, j))
  {
    hide Enabled, Apply;
    EndComes(s, step, j);
  }

  lemma {:induction false} GivenUpForCause(ss: seq<Service>, steps: seq<Step>, i: nat, w: nat, j: JobId)
    returns (k: nat)
    requires Run(ss, steps) && Init(ss[0]) && i < |ss| && GivingUp(ss[i], w, j)
    ensures k < i && k < |steps| && (ReadsBad(ss[k], steps[k], j) || SaysError(ss[k], steps[k], j))
  {
    hide Run, Inv, Enabled, Apply, ReadsBad, SaysError;
    assert i > 0;
    hide GivingUp;
    InvAlways(ss, steps, i - 1);
    StepOf(ss, steps, i);
    GivingUpStep(ss[i - 1], steps[i - 1], w, j);
    if ReadsBad(ss[i - 1], steps[i - 1], j) || SaysError(ss[i - 1], steps[i - 1], j) {
      k := i - 1;
    } else {
      k := GivenUpForCause(ss, steps, i - 1, w, j);
    }
  }

  /** A job ends as an error only if its rows were bad when a worker read them, or a handler of it said so. */
  lemma {:induction false} ErrorForCause(ss: seq<Service>, steps: seq<Step>, i: nat, j: JobId) returns (k: nat)
    requires Run(ss, steps) && Init(ss[0]) && i < |ss|
    requires j in ss[i].rows && ss[i].rows[j].status == Error
    requires j in ss[0].rows ==> ss[0].rows[j].status != Error
    ensures k < i && k < |steps| && (ReadsBad(ss[k], steps[k], j) || SaysError(ss[k], steps[k], j))
  {
    hide Run, Init, Inv, Enabled, Apply, GivingUp, ReadsBad, SaysError;
    InvAlways(ss, steps, i - 1);
    StepOf(ss, steps, i);
    BecomesError(ss[i - 1], steps[i - 1], j);
    if ByWorker(steps[i - 1]) && GivingUp(ss[i - 1], steps[i - 1].w, j) {
      k := GivenUpForCause(ss, steps, i - 1, steps[i - 1].w, j);
    } else {
      k := ErrorForCause(ss, steps, i - 1, j);
    }
  }

  /** Worker `w` is on its way to entering `retrying` with job `j`. */
  predicate GoingToRetry(s: Service, w: nat, j: JobId) {
    At(s, w) &&
    match s.workers[w].stage
    case Looping(i, _, n) => i == j && n == Retrying
    case Entering(i, _, n) => i == j && n == Retrying
    case _ => false
  }

  /** A handler of job `j` answers that it met a network failure. */
  predicate SaysRetry(s: Service, step: Step, j: JobId) {
    && step.Enter? && At(s, step.w) && s.workers[step.w].stage.Entering? && s.workers[step.w].stage.job == j
    && step.o == Go(Retrying)
  }

  lemma RetryEntered(s: Service, step: Step, j: JobId)
    requires Enabled(s, step) && step.Enter? && GoingToRetry(Apply(s, step), step.w, j)
    ensures SaysRetry(s, step, j)
  {
    hide Enabled, Apply, Legal, TableOf, EnterState;
    OwnApply(s, step);
    EnterTouches(s, step.w, step.o);
    EnterLeads(s, step.w, step.o);
  }

  lemma RetryLooked(s: Service, step: Step, j: JobId)
    requires Inv(s) && Enabled(s, step) && step.Look? && GoingToRetry(Apply(s, step), step.w, j)
    ensures GoingToRetry(s, step.w, j)
  {
    hide Inv, Enabled, Apply, AfterLook;
    OwnApply(s, step);
    LookLeads(s, step.w);
  }

  lemma RetryHandled(s: Service, step: Step, j: JobId)
    requires Enabled(s, step) && (step.Take? || step.Read? || step.Finish? || step.Clear?)
    ensures !GoingToRetry(Apply(s, step), step.w, j)
  {
    OwnApply(s, step);
    hide Enabled, Apply, EnterState, AfterLook, SetStatus, Answers;
  }

  lemma RetryStep(s: Service, step: Step, w: nat, j: JobId)
    requires Inv(s) && Enabled(s, step) && GoingToRetry(Apply(s, step), w, j)
    ensures GoingToRetry(s, w, j) || SaysRetry(s, step, j)
  {
    hide Inv, Enabled, Apply, SaysRetry, Stops;
    if !(ByWorker(step) && step.w == w) {
      OthersTouch(s, step, w);
    } else if step.Enter? {
      RetryEntered(s, step, j);
    } else if step.Look? {
      RetryLooked(s, step, j);
    } else {
      RetryHandled(s, step, j);
    }
  }

  lemma {:induction false} RetryIsAnswered(ss: seq<Service>, steps: seq<Step>, i: nat, w: nat, j: JobId)
    returns (k: nat)
    requires Run(ss, steps) && Init(ss[0]) && i < |ss| && GoingToRetry(ss[i], w, j)
    ensures k < i && k < |steps| && SaysRetry(ss[k], steps[k], j)
  {
    hide Run, Inv, Enabled, Apply, SaysRetry;
    assert i > 0;
    InvAlways(ss, steps, i - 1);
    StepOf(ss, steps, i);
    RetryStep(ss[i - 1], steps[i - 1], w, j);
    if SaysRetry(ss[i - 1], steps[i - 1], j) { k := i - 1; } else { k := RetryIsAnswered(ss, steps, i - 1, w, j); }
  }

  lemma RetryPosted(s: Service, step: Step, j: JobId)
    requires Enabled(s, step) && (step.ResetRunning? || step.Post?) && j in Apply(s, step).rows
    ensures Apply(s, step).rows[j].status == Retrying ==> j in s.rows && s.rows[j].status == Retrying
  {
    assert Apply(s, step) == if step.Post? then ApplyQueue(s, step) else ApplyStart(s, step);
    hide Enabled, Apply;
  }

  lemma BecomesRetrying(s: Service, step: Step, j: JobId)
    requires Enabled(s, step) && j in Apply(s, step).rows && Apply(s, step).rows[j].status == Retrying
    ensures (j in s.rows && s.rows[j].status == Retrying) || (step.Enter? && GoingToRetry(s, step.w, j))
  {
    hide Enabled, Apply;
    if step.Finish? || step.Enter? {
      EndWritten(s, step, j);
    } else if step.ResetRunning? || step.Post? {
      RetryPosted(s, step, j);
    } else if ByStart(step) {
      StartFrame(s, step);
    } else if ByQueue(step) {
      QueueFrame(s, step);
    } else if ByWorker(step) {
      WorkerFrame(s, step);
    } else {
      StopFrame(s, step);
    }
  }

  /** A job is put up for a retry only if one of its handlers met a network failure. */
  lemma {:induction false} RetriedOnAnswer(ss: seq<Service>, steps: seq<Step>, i: nat, j: JobId) returns (k: nat)
    requires Run(ss, steps) && Init(ss[0]) && i < |ss|
    requires j in ss[i].rows && ss[i].rows[j].status == Retrying
    requires j in ss[0].rows ==> ss[0].rows[j].status != Retrying
    ensures k < i && k < |steps| && SaysRetry(ss[k], steps[k], j)
  {
    hide Run, Init, Inv, Enabled, Apply, GoingToRetry, SaysRetry;
    InvAlways(ss, steps, i - 1);
    StepOf(ss, steps, i);
    BecomesRetrying(ss[i - 1], steps[i - 1], j);
    if steps[i - 1].Enter? && GoingToRetry(ss[i - 1], steps[i - 1].w, j) {
      k := RetryIsAnswered(ss, steps, i - 1, steps[i - 1].w, j);
    } else {
      k := RetriedOnAnswer(ss, steps, i - 1, j);
    }
  }

  /** Reading the rows of a job cancels it, gives it up, or starts it; which, depends on the rows alone. */
  lemma ReadDecides(s: Service, step: Step, j: JobId)
    requires Inv(s) && Enabled(s, step) && step.Read? && s.workers[step.w].stage == Reading(j)
    ensures var stage := Apply(s, step).workers[step.w].stage;
      && (stage == Stage.Canceling(j) <==> ReadsOff(s, step, j))
      && (stage == Failing(j) <==> ReadsBad(s, step, j))
      && (!ReadsOff(s, step, j) && !ReadsBad(s, step, j) ==> stage == Entering(j, Pending, Running))
  {
    hide Inv, Enabled, Apply, EnterState, LookAt, Legal, TableOf, SetStatus, Answers;
    OwnApply(s, step);
    SoundAt(s, step.w);
  }

  lemma StopperStep(s: Service, step: Step, k: nat)
    requires Enabled(s, step) && k in Apply(s, step).stoppers
    ensures var c := Apply(s, step).stoppers[k];
      if c.Asking? then step == Ask(k, c.policy) || (k in s.stoppers && s.stoppers[k] == c)
      else
        || (step == Query(k, c.ids) && k in s.stoppers && s.stoppers[k] == Asking(c.policy))
        || (k in s.stoppers && !s.stoppers[k].Asking? && s.stoppers[k].policy == c.policy
            && s.stoppers[k].ids == c.ids)
  {
    hide Enabled, Apply;
    if step.Crash? {
      assert step == Crash;
      NoStoppers(s);
    } else if ByStart(step) {
      StartFrame(s, step);
    } else if ByQueue(step) {
      QueueFrame(s, step);
    } else if ByWorker(step) {
      WorkerFrame(s, step);
    } else {
      StopApply(s, step);
      hide Enumerates;
    }
  }

  lemma NoStoppers(s: Service)
    requires Enabled(s, Crash)
    ensures Apply(s, Crash).stoppers == map[]
  {
  }

  /** The action behind a stopper that asks for the jobs of its policy. */
  lemma {:induction false} AskedFor(ss: seq<Service>, steps: seq<Step>, i: nat, k: nat) returns (a: nat)
    requires Run(ss, steps) && Init(ss[0]) && i < |ss| && k in ss[i].stoppers && ss[i].stoppers[k].Asking?
    ensures a < i && a < |steps| && steps[a] == Ask(k, ss[i].stoppers[k].policy)
  {
    hide Run, Enabled, Apply;
    assert i > 0;
    StepOf(ss, steps, i);
    StopperStep(ss[i - 1], steps[i - 1], k);
    if steps[i - 1] == Ask(k, ss[i].stoppers[k].policy) { a := i - 1; } else { a := AskedFor(ss, steps, i - 1, k); }
  }

  /** And the query its ids come from. */
  lemma {:induction false} QueriedFor(ss: seq<Service>, steps: seq<Step>, i: nat, k: nat) returns (q: nat)
    requires Run(ss, steps) && Init(ss[0]) && i < |ss| && k in ss[i].stoppers && !ss[i].stoppers[k].Asking?
    ensures q < i && q < |steps| && steps[q] == Query(k, ss[i].stoppers[k].ids)
    ensures k in ss[q].stoppers && ss[q].stoppers[k] == Asking(ss[i].stoppers[k].policy)
  {
    hide Run, Enabled, Apply;
    assert i > 0;
    StepOf(ss, steps, i);
    var c := ss[i].stoppers[k];
    StopperStep(ss[i - 1], steps[i - 1], k);
    if steps[i - 1] == Query(k, c.ids) && ss[i - 1].stoppers[k] == Asking(c.policy) {
      q := i - 1;
    } else {
      q := QueriedFor(ss, steps, i - 1, k);
    }
  }

  lemma QueryLists(s: Service, k: nat, ids: seq<JobId>, p: PolicyId, j: JobId)
    requires Enabled(s, Query(k, ids)) && k in s.stoppers && s.stoppers[k] == Asking(p)
    ensures j in ids <==> j in s.rows && s.rows[j].policy == p && s.rows[j].status in {Pending, Running}
  {
    assert StopEnabled(s, Query(k, ids));
    hide Enabled;
  }

  /** Stop is called for a job only by an action to stop its policy that found it pending or running. A job that
      waits for its retry is not stopped by anybody. */
  lemma StopsWhatItFound(ss: seq<Service>, steps: seq<Step>, i: nat, w: nat, j: JobId)
    returns (a: nat, q: nat, k: nat)
    requires Run(ss, steps) && Init(ss[0]) && i < |steps| && |ss| == |steps| + 1 && Stops(ss[i], steps[i], w, j)
    ensures a < q < i && steps[q].Query? && steps[q].k == k && j in ss[q].rows
    ensures ss[q].rows[j].status in {Pending, Running} && steps[a] == Ask(k, ss[q].rows[j].policy)
  {
    hide Run, Init, Enabled, Apply;
    k := steps[i].k;
    var c := ss[i].stoppers[k];
    q := QueriedFor(ss, steps, i, k);
    a := AskedFor(ss, steps, q, k);
    StepOf(ss, steps, q + 1);
    QueryLists(ss[q], k, c.ids, c.policy, j);
  }

  /** So a job ends as stopped only after an action to stop its policy found it pending or running. */
  lemma StoppedByAction(ss: seq<Service>, steps: seq<Step>, i: nat, j: JobId) returns (a: nat, q: nat)
    requires Run(ss, steps) && Init(ss[0]) && i < |ss|
    requires j in ss[i].rows && ss[i].rows[j].status == Stopped
    requires j in ss[0].rows ==> ss[0].rows[j].status != Stopped
    ensures a < q < i && |ss| == |steps| + 1 && steps[q].Query? && j in ss[q].rows
    ensures ss[q].rows[j].status in {Pending, Running} && steps[a] == Ask(steps[q].k, ss[i].rows[j].policy)
  {
    hide Init, Enabled, Apply, Stops, RowKept;
    var m, w := StoppedOnRequest(ss, steps, i, j);
    hide Run;
    var k;
    a, q, k := StopsWhatItFound(ss, steps, m, w, j);
    TerminalIsForever(ss, steps, q, i, j);
    RowIsKept(ss[q].rows, ss[i].rows, j);
  }
}
