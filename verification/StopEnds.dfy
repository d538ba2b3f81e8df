/** A settled job whose policy stays disabled ends: every step its carrier takes brings it closer. */
module StopEnds {
  import opened States
  import opened JobService
  import opened Carriers
  import opened Guarantees
  import opened StopAction

  /** An upper bound on the steps a worker has left with its job before it is rid of it for good. */
  function StepsAtWorker(stage: Stage, desired: State): nat {
    match stage
    case Taken(_) => 3
    case Reading(_) => 2
    case Canceling(_) => 1
    case Failing(_) => 1
    case Entering(_, _, n) => if n in {Finished, Stopped, Error} then 1 else if n == Retrying then 8 else 5
    case Looping(_, _, n) => if desired != NoState then 4 else if n in {Finished, Stopped, Error} then 2 else 9
    case Clearing(_, _) => 3
    case _ => 0
  }

  function StepsLeft(s: Service, p: Place, j: JobId): nat {
    match p
    case BlockedInSchedule => 6
    case Asleep => 7
    case WithDispatcher(d) => if d < |s.dispatchers| && s.dispatchers[d].Handing? then 4 else 5
    case AtWorker(w) => if At(s, w) then StepsAtWorker(s.workers[w].stage, s.workers[w].desired) else 0
  }

  /** The step moves job `j`: it is taken by the one who holds it. */
  predicate Moves(s: Service, step: Step, j: JobId) {
    match step
    case Receive(i) => i == j
    case Wake(i) => i == j
    case Pick(d) => d < |s.dispatchers| && s.dispatchers[d].job == j
    case Hand(d) => d < |s.dispatchers| && s.dispatchers[d].job == j
    case Take(w) => At(s, w) && JobAt(s.workers[w].stage) == Item(j)
    case Read(w, _) => At(s, w) && JobAt(s.workers[w].stage) == Item(j)
    case Finish(w) => At(s, w) && JobAt(s.workers[w].stage) == Item(j)
    case Enter(w, _) => At(s, w) && JobAt(s.workers[w].stage) == Item(j)
    case Look(w) => At(s, w) && JobAt(s.workers[w].stage) == Item(j)
    case Clear(w) => At(s, w) && JobAt(s.workers[w].stage) == Item(j)
    case _ => false
  }

  /** The step is a call of Stop for job `j`. */
  predicate NamesJob(s: Service, step: Step, j: JobId) {
    && step.CallStop? && step.k in s.stoppers && s.stoppers[step.k].Calling?
    && s.stoppers[step.k].i < |s.stoppers[step.k].ids| && s.stoppers[step.k].ids[s.stoppers[step.k].i] == j
  }

  /** Where the job is after the step, if anybody still has it. */
  function NextPlace(s: Service, step: Step, p: Place, j: JobId): Place {
    match p
    case BlockedInSchedule => if step == Receive(j) then WithDispatcher(|s.dispatchers|) else p
    case Asleep => if step == Wake(j) then BlockedInSchedule else p
    case WithDispatcher(d) =>
      if step.Hand? && step.d == d && d < |s.dispatchers| && s.dispatchers[d].Handing?
      then AtWorker(s.dispatchers[d].worker)
      else if step.Hand? && step.d < d then WithDispatcher(d - 1)
      else p
    case AtWorker(w) =>
      if step.Enter? && step.w == w && At(s, w) && s.workers[w].stage.Entering? && s.workers[w].stage.n == Retrying
      then Asleep else p
  }

  /** The job is at `p` and nowhere else. */
  ghost predicate OnlyAt(s: Service, p: Place, j: JobId) {
    && HeldAt(s, p, j) && (forall q | HeldAt(s, q, j) :: q == p)
    && s.scheduling[j] <= 1 && s.sleeping[j] <= 1
  }

  /** The step that moves the job is one of whoever holds it. */
  predicate StepOfHolder(step: Step, p: Place) {
    match p
    case BlockedInSchedule => step.Receive?
    case Asleep => step.Wake?
    case WithDispatcher(d) => (step.Pick? || step.Hand?) && step.d == d
    case AtWorker(w) => ByWorker(step) && step.w == w
  }

  lemma MoverIsHolder(s: Service, step: Step, j: JobId) returns (p: Place)
    requires Enabled(s, step) && Moves(s, step, j)
    ensures HeldAt(s, p, j) && StepOfHolder(step, p)
  {
    if step.Receive? {
      p := BlockedInSchedule;
    } else if step.Wake? {
      p := Asleep;
    } else if step.Pick? || step.Hand? {
      p := WithDispatcher(step.d);
    } else {
      p := AtWorker(step.w);
    }
  }

  lemma MoverHolds(s: Service, step: Step, p: Place, j: JobId)
    requires OnlyAt(s, p, j) && Moves(s, step, j) && Enabled(s, step)
    ensures StepOfHolder(step, p) && (step.Receive? ==> step.job == j) && (step.Wake? ==> step.job == j)
  {
    hide Enabled, HeldAt, StepOfHolder;
    var q := MoverIsHolder(s, step, j);
  }

  /** The job at `p` is at `q` after the step, and if the step moved it, closer to its end. */
  ghost predicate Closer(s: Service, step: Step, p: Place, j: JobId, s': Service, q: Place) {
    HeldAt(s', q, j) &&
    StepsLeft(s', q, j) + (if Moves(s, step, j) then 1 else 0)
      <= StepsLeft(s, p, j) + if NamesJob(s, step, j) then 2 else 0
  }

  lemma StaysQueued(s: Service, step: Step, j: JobId)
    requires Enabled(s, step) && ByQueue(step) && !((step.Receive? || step.Wake?) && step.job == j)
    ensures j in s.scheduling ==> j in Apply(s, step).scheduling
    ensures j in s.sleeping ==> j in Apply(s, step).sleeping
  {
    hide Enabled, Apply, At;
    QueueApply(s, step);
  }

  /** A step that does not take the job away leaves it waiting. */
  lemma StaysWaiting(s: Service, step: Step, j: JobId)
    requires Enabled(s, step) && !step.Crash? && !((step.Receive? || step.Wake?) && step.job == j)
    ensures j in s.scheduling ==> j in Apply(s, step).scheduling
    ensures j in s.sleeping ==> j in Apply(s, step).sleeping
  {
    hide Enabled, Apply;
    if ByStart(step) {
      StartFrame(s, step);
    } else if ByQueue(step) {
      StaysQueued(s, step, j);
    } else if ByWorker(step) {
      WorkerFrame(s, step);
    } else {
      StopFrame(s, step);
    }
  }

  lemma WaitingMoves(s: Service, step: Step, p: Place, j: JobId)
    requires Enabled(s, step) && OnlyAt(s, p, j)
    requires (p.BlockedInSchedule? && step.Receive? && step.job == j) || (p.Asleep? && step.Wake? && step.job == j)
    ensures Closer(s, step, p, j, Apply(s, step), NextPlace(s, step, p, j))
  {
    hide StepsAtWorker, JobAt, NamesJob;
    assert step == if step.Receive? then Receive(j) else Wake(j);
  }

  lemma WaitingStep(s: Service, step: Step, p: Place, j: JobId)
    requires Enabled(s, step) && !step.Crash? && OnlyAt(s, p, j) && (p.BlockedInSchedule? || p.Asleep?)
    ensures Closer(s, step, p, j, Apply(s, step), NextPlace(s, step, p, j))
  {
    hide Enabled, Apply, NamesJob, JobAt, StepsAtWorker;
    if Moves(s, step, j) {
      MoverHolds(s, step, p, j);
      WaitingMoves(s, step, p, j);
    } else {
      StaysWaiting(s, step, j);
    }
  }

  lemma DispatcherMoves(s: Service, step: Step, d: nat, j: JobId)
    requires Enabled(s, step) && OnlyAt(s, WithDispatcher(d), j) && (step.Pick? || step.Hand?) && step.d == d
    ensures Closer(s, step, WithDispatcher(d), j, Apply(s, step), NextPlace(s, step, WithDispatcher(d), j))
  {
    hide Enabled, Apply;
    QueueApply(s, step);
  }

  lemma DispatcherQueued(s: Service, step: Step, d: nat)
    requires Enabled(s, step) && ByQueue(step) && d < |s.dispatchers| && !((step.Pick? || step.Hand?) && step.d == d)
    ensures var ds, c := Apply(s, step).dispatchers, if step.Hand? && step.d < d then d - 1 else d;
            c < |ds| && ds[c] == s.dispatchers[d]
  {
    hide Enabled, Apply;
    QueueApply(s, step);
  }

  lemma DispatcherAfterOther(s: Service, step: Step, d: nat)
    requires Enabled(s, step) && !step.Crash? && d < |s.dispatchers| && !((step.Pick? || step.Hand?) && step.d == d)
    ensures var ds, c := Apply(s, step).dispatchers, if step.Hand? && step.d < d then d - 1 else d;
            c < |ds| && ds[c] == s.dispatchers[d]
  {
    hide Enabled, Apply;
    if ByStart(step) {
      StartFrame(s, step);
    } else if ByQueue(step) {
      DispatcherQueued(s, step, d);
    } else if ByWorker(step) {
      WorkerFrame(s, step);
    } else {
      StopFrame(s, step);
    }
  }

  lemma DispatchedStep(s: Service, step: Step, d: nat, j: JobId)
    requires Enabled(s, step) && !step.Crash? && OnlyAt(s, WithDispatcher(d), j)
    ensures Closer(s, step, WithDispatcher(d), j, Apply(s, step), NextPlace(s, step, WithDispatcher(d), j))
  {
    hide Enabled, Apply, NamesJob, JobAt;
    if (step.Pick? || step.Hand?) && step.d == d {
      DispatcherMoves(s, step, d, j);
    } else {
      if Moves(s, step, j) { MoverHolds(s, step, WithDispatcher(d), j); }
      DispatcherAfterOther(s, step, d);
    }
  }

  /** A step of others leaves a worker with its job where it is; at most it is asked to stop. */
  lemma HandledByOther(s: Service, step: Step, w: nat, j: JobId)
    requires Inv(s) && Enabled(s, step) && !step.Crash? && !step.BootUp?
    requires OnlyAt(s, AtWorker(w), j) && !Moves(s, step, j)
    ensures Closer(s, step, AtWorker(w), j, Apply(s, step), AtWorker(w))
  {
    hide Inv, Enabled, Apply, Legal, TableOf, Working, Unfinished;
    DesiredIsStop(s, w);
    assert !(ByWorker(step) && step.w == w);
    OthersTouch(s, step, w);
    hide Sound;
  }

  lemma DesiredIsStop(s: Service, w: nat)
    requires Inv(s) && At(s, w)
    ensures s.workers[w].desired in {NoState, Stopped}
    ensures s.workers[w].stage.Entering? || s.workers[w].stage.Looping? ==> s.workers[w].jobID == s.workers[w].stage.job
  {
    hide Inv, Legal, TableOf;
    SoundAt(s, w);
  }

  /** A look, an answer or a reading of the row by the worker brings a settled job closer to its end. */
  lemma HandledOnward(s: Service, step: Step, w: nat, j: JobId)
    requires Inv(s) && Enabled(s, step) && OnlyAt(s, AtWorker(w), j) && Moves(s, step, j)
    requires ByWorker(step) && step.w == w && !step.Enter?
    requires j in s.rows && Off(s, s.rows[j].policy) && SettledAt(s, w, j)
    ensures var s' := Apply(s, step);
      || (StepsLeft(s, AtWorker(w), j) >= 1 && j in s'.rows && Terminal(s'.rows[j].status))
      || Closer(s, step, AtWorker(w), j, s', AtWorker(w))
  {
    hide Inv, Enabled, Apply, EnterState, Legal, TableOf, Targets, Only, Answers;
    OwnApply(s, step);
    SoundAt(s, w);
  }

  lemma HandledEntering(s: Service, step: Step, w: nat, j: JobId)
    requires Inv(s) && Enabled(s, step) && step.Enter? && step.w == w && OnlyAt(s, AtWorker(w), j) && Moves(s, step, j)
    requires SettledAt(s, w, j)
    ensures var s' := Apply(s, step);
      || (StepsLeft(s, AtWorker(w), j) >= 1 && j in s'.rows && Terminal(s'.rows[j].status))
      || Closer(s, step, AtWorker(w), j, s', NextPlace(s, step, AtWorker(w), j))
  {
    hide Inv, Enabled, Apply, Legal, TableOf, Answers;
    OwnApply(s, step);
    SoundAt(s, w);
  }

  /** A step of the worker itself ends the job or brings it closer to its end. */
  lemma HandledByOwner(s: Service, step: Step, w: nat, j: JobId)
    requires Inv(s) && Enabled(s, step) && OnlyAt(s, AtWorker(w), j) && Moves(s, step, j)
    requires j in s.rows && Off(s, s.rows[j].policy) && SettledAt(s, w, j)
    ensures var s' := Apply(s, step);
      || (StepsLeft(s, AtWorker(w), j) >= 1 && j in s'.rows && Terminal(s'.rows[j].status))
      || Closer(s, step, AtWorker(w), j, s', NextPlace(s, step, AtWorker(w), j))
  {
    hide Inv, Enabled, Apply, OnlyAt, Closer, Moves, Off, SettledAt, StepsLeft;
    MoverHolds(s, step, AtWorker(w), j);
    if step.Enter? { HandledEntering(s, step, w, j); } else { HandledOnward(s, step, w, j); }
  }

  lemma PlaceStep(s: Service, step: Step, p: Place, j: JobId)
    requires Inv(s) && Enabled(s, step) && !step.Crash? && s.boot == Serving && OnlyAt(s, p, j)
    requires j in s.rows && Off(s, s.rows[j].policy) && AllSettled(s, j)
    ensures var s' := Apply(s, step);
      || (StepsLeft(s, p, j) >= 1 && j in s'.rows && Terminal(s'.rows[j].status))
      || Closer(s, step, p, j, s', NextPlace(s, step, p, j))
  {
    hide Inv, Apply, EnterState, Closer, StepsAtWorker, SettledAt;
    match p
    case BlockedInSchedule => WaitingStep(s, step, p, j);
    case Asleep => WaitingStep(s, step, p, j);
    case WithDispatcher(d) => DispatchedStep(s, step, d, j);
    case AtWorker(w) =>
      if Moves(s, step, j) {
        HandledByOwner(s, step, w, j);
      } else {
        HandledByOther(s, step, w, j);
      }
  }

  /** How many of the steps from `a` to `b` move the job. */
  ghost function Moved(ss: seq<Service>, steps: seq<Step>, a: nat, b: nat, j: JobId): nat
    requires a <= b < |ss| && |ss| == |steps| + 1
  {
    if a == b then 0 else Moved(ss, steps, a, b - 1, j) + if Moves(ss[b - 1], steps[b - 1], j) then 1 else 0
  }

  /** How many of them are calls of Stop for the job. */
  ghost function Named(ss: seq<Service>, steps: seq<Step>, a: nat, b: nat, j: JobId): nat
    requires a <= b < |ss| && |ss| == |steps| + 1
  {
    if a == b then 0 else Named(ss, steps, a, b - 1, j) + if NamesJob(ss[b - 1], steps[b - 1], j) then 1 else 0
  }

  /** The service is up at `a` and does not crash before `b`. */
  ghost predicate StaysUp(ss: seq<Service>, steps: seq<Step>, a: nat, b: nat) {
    && a <= b < |ss| && ss[a].boot == Serving
    && forall m | a <= m < b && m < |steps| :: !steps[m].Crash?
  }

  lemma ServingStep(s: Service, step: Step)
    requires Enabled(s, step) && s.boot == Serving && !step.Crash?
    ensures Apply(s, step).boot == Serving
  {
    hide Apply;
    if ByQueue(step) {
      QueueFrame(s, step);
    } else if ByWorker(step) {
      WorkerFrame(s, step);
    } else {
      StopFrame(s, step);
    }
  }

  lemma {:induction false} ServingUntil(ss: seq<Service>, steps: seq<Step>, a: nat, b: nat)
    requires Run(ss, steps) && StaysUp(ss, steps, a, b)
    ensures b < |ss| && ss[b].boot == Serving
  {
    hide Run, Enabled, Apply;
    if a < b {
      ServingUntil(ss, steps, a, b - 1);
      StepOf(ss, steps, b);
      ServingStep(ss[b - 1], steps[b - 1]);
    }
  }

  lemma TheOnlyPlace(ss: seq<Service>, steps: seq<Step>, i: nat, p: Place, j: JobId)
    requires Run(ss, steps) && Init(ss[0]) && i < |ss| && ss[i].boot == Serving && HeldAt(ss[i], p, j)
    ensures OnlyAt(ss[i], p, j) && j in ss[i].rows && Unfinished(ss[i].rows[j].status)
  {
    hide Run, Init, HeldAt;
    ExactlyOneCarrier(ss, steps, i, j);
  }

  /** How many more steps the job can take from where it is: none once it is over. */
  ghost predicate AtMostLeft(s: Service, j: JobId, n: int) {
    if j in s.rows && Unfinished(s.rows[j].status) then exists p :: HeldAt(s, p, j) && StepsLeft(s, p, j) <= n
    else n >= 0
  }

  lemma OverStaysOver(ss: seq<Service>, steps: seq<Step>, b: nat, j: JobId)
    requires Run(ss, steps) && Init(ss[0]) && b + 1 < |ss| && |ss| == |steps| + 1 && ss[b].boot == Serving
    requires j in ss[b].rows && !Unfinished(ss[b].rows[j].status)
    ensures j in ss[b + 1].rows && !Unfinished(ss[b + 1].rows[j].status)
    ensures !Moves(ss[b], steps[b], j)
  {
    hide Run, Init, Inv, Enabled, Apply, HeldAt, Moves, RowKept;
    ExactlyOneCarrier(ss, steps, b, j);
    InvAlways(ss, steps, b);
    UpFrom(ss[b]);
    StepOf(ss, steps, b + 1);
    TerminalIsForever(ss, steps, b, b + 1, j);
    RowIsKept(ss[b].rows, ss[b + 1].rows, j);
    if Moves(ss[b], steps[b], j) { var p := MoverIsHolder(ss[b], steps[b], j); }
  }

  lemma LeftStep(ss: seq<Service>, steps: seq<Step>, b: nat, j: JobId, n: int)
    requires Run(ss, steps) && Init(ss[0]) && b + 1 < |ss| && |ss| == |steps| + 1
    requires ss[b].boot == Serving && !steps[b].Crash?
    requires j in ss[b].rows && Off(ss[b], ss[b].rows[j].policy) && AllSettled(ss[b], j) && AtMostLeft(ss[b], j, n)
    ensures AtMostLeft(ss[b + 1], j, n - (if Moves(ss[b], steps[b], j) then 1 else 0)
                                       + if NamesJob(ss[b], steps[b], j) then 2 else 0)
  {
    hide Run, Init, Inv, Enabled, Apply, OnlyAt, HeldAt, Off, AllSettled, Moves, NamesJob, StepsLeft, RowKept, Known;
    InvAlways(ss, steps, b);
    StepOf(ss, steps, b + 1);
    var s, step := ss[b], steps[b];
    if Unfinished(s.rows[j].status) {
      var p :| HeldAt(s, p, j) && StepsLeft(s, p, j) <= n;
      TheOnlyPlace(ss, steps, b, p, j);
      PlaceStep(s, step, p, j);
    } else {
      OverStaysOver(ss, steps, b, j);
    }
  }

  /** While the service stays up and the policy disabled, a settled job is moved at most nine times
      plus twice for every further call of Stop that names it. */
  lemma {:induction false} FewStepsLeft(ss: seq<Service>, steps: seq<Step>, a: nat, b: nat, j: JobId)
    requires Run(ss, steps) && Init(ss[0]) && StaysUp(ss, steps, a, b)
    requires j in ss[a].rows && AllSettled(ss[a], j) && StaysOff(ss, steps, a, b, ss[a].rows[j].policy)
    ensures |ss| == |steps| + 1 && a <= b < |ss|
    ensures AtMostLeft(ss[b], j, 9 + 2 * Named(ss, steps, a, b, j) - Moved(ss, steps, a, b, j))
  {
    hide Init, Inv, Enabled, Apply, Moves, NamesJob, Off, AllSettled, TurnsOn, HeldAt;
    if a == b {
      ServingUntil(ss, steps, a, b);
      ExactlyOneCarrier(ss, steps, a, j);
    } else {
      FewStepsLeft(ss, steps, a, b - 1, j);
      ServingUntil(ss, steps, a, b - 1);
      SettledUntil(ss, steps, a, b - 1, j);
      LeftStep(ss, steps, b - 1, j, 9 + 2 * Named(ss, steps, a, b - 1, j) - Moved(ss, steps, a, b - 1, j));
    }
  }

  lemma PlaceCanGoOn(s: Service, p: Place, j: JobId)
    requires HeldAt(s, p, j)
    requires forall d: nat | d < |s.dispatchers| && s.dispatchers[d].Handing? :: Enabled(s, Hand(d))
    ensures (exists step :: Enabled(s, step) && Moves(s, step, j))
      || (s.free == [] && exists d: nat :: HeldAt(s, WithDispatcher(d), j) && s.dispatchers[d].Seeking?)
  {
    match p {
      case BlockedInSchedule => assert Enabled(s, Receive(j)) && Moves(s, Receive(j), j);
      case Asleep => assert Enabled(s, Wake(j)) && Moves(s, Wake(j), j);
      case WithDispatcher(d) =>
        if s.dispatchers[d].Handing? {
          assert Enabled(s, Hand(d)) && Moves(s, Hand(d), j);
        } else if s.free != [] {
          assert Enabled(s, Pick(d)) && Moves(s, Pick(d), j);
        } else {
          assert HeldAt(s, WithDispatcher(d), j);
        }
      case AtWorker(w) => { var step := WorkerCanGoOn(s, w); assert Moves(s, step, j); }
    }
  }

  /** A step by which a worker gets on with its job or gets free. */
  predicate OfPool(step: Step) {
    ByWorker(step) || step.Hand? || step.Offer?
  }

  /** As long as no worker is free, one of them can go on. */
  lemma PoolGoesOn(s: Service)
    requires OnePlace(s) && s.free == [] && |s.workers| > 0
    requires forall d: nat | d < |s.dispatchers| && s.dispatchers[d].Handing? :: Enabled(s, Hand(d))
    ensures exists step :: Enabled(s, step) && OfPool(step)
  {
    hide Enabled, OnePlace, JobAt, OfPool;
    var p := SomeSpot(s, 0);
    match p
    case Starting =>
      OfferNeverBlocks(s, 0);
      PoolStep(s, Offer(0));
    case HeldBy(d) => PoolStep(s, Hand(d));
    case Busy =>
      var step := WorkerCanGoOn(s, 0);
      PoolStep(s, step);
    case Queued => QueuedIsFree(s, 0);
  }

  lemma PoolStep(s: Service, step: Step)
    requires Enabled(s, step) && OfPool(step)
    ensures exists step :: Enabled(s, step) && OfPool(step)
  {
  }

  lemma QueuedIsFree(s: Service, w: nat)
    requires InSpot(s, w, Queued)
    ensures s.free != []
  {
  }

  /** A job that is not over can be moved, unless it waits for a worker and none is free; and then, if
      there are workers at all, one of them can go on. */
  lemma CanBeMoved(ss: seq<Service>, steps: seq<Step>, i: nat, j: JobId)
    requires Run(ss, steps) && Init(ss[0]) && i < |ss| && ss[i].boot == Serving
    requires j in ss[i].rows && Unfinished(ss[i].rows[j].status)
    ensures (exists step :: Enabled(ss[i], step) && Moves(ss[i], step, j)) || NextInLine(ss[i], j)
  {
    hide Run, Init, Enabled, JobAt;
    ExactlyOneCarrier(ss, steps, i, j);
    SendsNeverBlock(ss, steps, i);
    InvAlways(ss, steps, i);
    var s := ss[i];
    var p :| HeldAt(s, p, j);
    PlaceCanGoOn(s, p, j);
    hide OnePlace, Known, AllSound, Counted, RunningHeld, OfPool;
    if s.free == [] && |s.workers| > 0 { PoolGoesOn(s); }
  }

  /** The job waits for a worker and none is free, but some worker, if there are any, can go on. */
  ghost predicate NextInLine(s: Service, j: JobId) {
    && s.free == [] && (exists d: nat :: HeldAt(s, WithDispatcher(d), j) && s.dispatchers[d].Seeking?)
    && (|s.workers| > 0 ==> exists step :: Enabled(s, step) && OfPool(step))
  }

  lemma WorkerCanGoOn(s: Service, w: nat) returns (step: Step)
    requires At(s, w) && JobAt(s.workers[w].stage).Item?
    ensures Enabled(s, step) && OfPool(step)
    ensures forall j :: JobAt(s.workers[w].stage) == Item(j) ==> Moves(s, step, j)
  {
    match s.workers[w].stage
    case Taken(_) => step := Take(w);
    case Reading(_) => step := Read(w, true);
    case Canceling(_) => step := Finish(w);
    case Failing(_) => step := Finish(w);
    case Entering(_, _, n) =>
      step := Enter(w, if n == Running then Go(Continue) else if Working(n) then Fail(OtherErr) else Go(NoState));
    case Looping(_, _, _) => step := Look(w);
    case Clearing(_, _) => step := Clear(w);
    case _ =>
  }

  /** Disable, then stop. The stop action for `p` queries at step `q` and is through at `e`; the
      policy stays disabled throughout and the service stays up. From `e` on a job that was pending
      or running at the query starts at most one more working handler and is moved at most nine
      times plus twice for every further call of Stop for it; and until it is canceled, stopped,
      finished or failed it can be moved, or is next in line for a worker. */
  lemma DisableThenStop(ss: seq<Service>, steps: seq<Step>, q: nat, e: nat, b: nat, k: nat, ids: seq<JobId>,
                        p: PolicyId, j: JobId)
    requires Run(ss, steps) && Init(ss[0]) && q < e <= b < |ss| && steps[q] == Query(k, ids)
    requires k in ss[q].stoppers && ss[q].stoppers[k] == Asking(p) && StaysOff(ss, steps, q, b, p)
    requires StaysUp(ss, steps, q, b)
    requires k in ss[e].stoppers && ss[e].stoppers[k].Scanning? && ss[e].stoppers[k].i >= |ids|
    requires j in ss[q].rows && ss[q].rows[j].policy == p && ss[q].rows[j].status in {Pending, Running}
    ensures |ss| == |steps| + 1
    ensures WorkingSteps(ss, steps, e, b, j) <= 1
    ensures Moved(ss, steps, e, b, j) <= 9 + 2 * Named(ss, steps, e, b, j)
    ensures j in ss[b].rows && (Terminal(ss[b].rows[j].status)
      || (exists step :: Enabled(ss[b], step) && Moves(ss[b], step, j))
      || NextInLine(ss[b], j))
  {
    hide Run, Init, Inv, Known, Enabled, Apply, Off, TurnsOn, AllSettled, SettledAt;
    hide AtMostLeft, HeldAt, Moves, NamesJob, Works, SomeReady, NextInLine;
    StopActionSettles(ss, steps, q, e, k, ids, p, j);
    ServingUntil(ss, steps, q, e);
    AtMostOneMoreHandler(ss, steps, e, b, j);
    FewStepsLeft(ss, steps, e, b, j);
    NoNegativeSteps(ss[b], j, 9 + 2 * Named(ss, steps, e, b, j) - Moved(ss, steps, e, b, j));
    SettledUntil(ss, steps, e, b, j);
    UpFrom(ss[b]);
    KnownAt(ss[b].rows, j);
    ServingUntil(ss, steps, e, b);
    if Unfinished(ss[b].rows[j].status) { CanBeMoved(ss, steps, b, j); }
  }

  lemma WaningIsSettled(s: Service, j: JobId)
    requires AllWaning(s, j)
    ensures AllSettled(s, j)
  {
    forall w: nat ensures SettledAt(s, w, j) { assert Waning(s, w, j); }
  }

  /** A job that waits or is to be retried, with no worker past Reset with it when its policy is disabled,
      is moved at most nine times plus twice for every call of Stop for it, and until it is canceled
      it can be moved, or is next in line for a worker: it ends as canceled and in no other way. */
  lemma WaningIsCanceled(ss: seq<Service>, steps: seq<Step>, a: nat, b: nat, j: JobId)
    requires Run(ss, steps) && Init(ss[0]) && StaysUp(ss, steps, a, b) && j in ss[a].rows
    requires ss[a].rows[j].status in {Pending, Retrying} && AllWaning(ss[a], j)
    requires StaysOff(ss, steps, a, b, ss[a].rows[j].policy)
    ensures |ss| == |steps| + 1
    ensures Moved(ss, steps, a, b, j) <= 9 + 2 * Named(ss, steps, a, b, j)
    ensures j in ss[b].rows && (ss[b].rows[j].status == Canceled
      || (ss[b].rows[j].status == ss[a].rows[j].status && exists step :: Enabled(ss[b], step) && Moves(ss[b], step, j))
      || NextInLine(ss[b], j))
  {
    hide Run, Init, Inv, Enabled, Apply, Off, TurnsOn, AllSettled, AllWaning;
    hide AtMostLeft, HeldAt, Moves, NamesJob, NextInLine;
    WaningIsSettled(ss[a], j);
    WaningEndsCanceled(ss, steps, a, b, j);
    FewStepsLeft(ss, steps, a, b, j);
    NoNegativeSteps(ss[b], j, 9 + 2 * Named(ss, steps, a, b, j) - Moved(ss, steps, a, b, j));
    ServingUntil(ss, steps, a, b);
    if ss[b].rows[j].status != Canceled { CanBeMoved(ss, steps, b, j); }
  }

  lemma KnownAt(rows: map<JobId, Row>, j: JobId)
    requires Known(rows) && j in rows
    ensures Unfinished(rows[j].status) || Terminal(rows[j].status)
  {
  }

  lemma NoNegativeSteps(s: Service, j: JobId, n: int)
    requires AtMostLeft(s, j, n)
    ensures n >= 0
  {
  }
}
