/** The job service as a whole: worker pool, dispatcher, rescheduler, crash and resume, and the
    stop action, as one transition system whose steps are the atomic actions of its goroutines.
    The machine of a worker follows the tables and answers of module `States`. */
module JobService {
  import opened States

  type JobId = int
  type PolicyId = int

  datatype Row = Row(status: State, policy: PolicyId, operation: Operation)

  /** Where a worker goroutine is. `Looping` is the top of the loop of Start with the next state
      `n`, `Entering` the call of EnterState, `Clearing` lies between seeing a stop request and
      resetting the desired state. */
  datatype Stage =
    | Offering
    | Listening
    | Taken(job: JobId)
    | Reading(job: JobId)
    | Canceling(job: JobId)
    | Failing(job: JobId)
    | Entering(job: JobId, cur: State, n: State)
    | Looping(job: JobId, cur: State, n: State)
    | Clearing(job: JobId, cur: State)

  /** `jobID` and `desired` are the fields of the machine; they survive the job. */
  datatype Worker = Worker(stage: Stage, jobID: JobId, desired: State)

  /** A goroutine of Dispatch: waiting for a free worker, or sending the id to one. */
  datatype Dispatcher = Seeking(job: JobId) | Handing(job: JobId, worker: nat)

  /** A stop action: before its query, at worker `w` for the `i`-th id, or about to call Stop. */
  datatype Stopper =
    | Asking(policy: PolicyId)
    | Scanning(policy: PolicyId, ids: seq<JobId>, i: nat, w: nat)
    | Calling(policy: PolicyId, ids: seq<JobId>, i: nat, w: nat)

  /** Start-up: after a crash nothing runs; `Resuming` holds the ids resumeJobs has yet to schedule. */
  datatype Boot = Down | Resetting | Listing | Resuming(rest: seq<JobId>) | Serving

  datatype Service = Service(
    rows: map<JobId, Row>,
    enabled: map<PolicyId, bool>,
    boot: Boot,
    scheduling: multiset<JobId>,
    sleeping: multiset<JobId>,
    dispatchers: seq<Dispatcher>,
    free: seq<nat>,
    workers: seq<Worker>,
    stoppers: map<nat, Stopper>)

  datatype Step =
    | BootUp(maxWorkers: nat)
    | ResetRunning
    | ListJobs(ids: seq<JobId>)
    | ResumeNext
    | ResumeDone
    | Post(job: JobId, policy: PolicyId, operation: Operation)
    | Receive(job: JobId)
    | Wake(job: JobId)
    | Pick(d: nat)
    | Hand(d: nat)
    | Offer(w: nat)
    | Take(w: nat)
    | Read(w: nat, loadable: bool)
    | Finish(w: nat)
    | Enter(w: nat, o: Outcome)
    | Look(w: nat)
    | Clear(w: nat)
    | Ask(k: nat, policy: PolicyId)
    | Query(k: nat, ids: seq<JobId>)
    | Inspect(k: nat)
    | CallStop(k: nat)
    | SetEnabled(policy: PolicyId, on: bool)
    | Crash

  function SetStatus(rows: map<JobId, Row>, j: JobId, status: State): map<JobId, Row> {
    if j in rows then rows[j := rows[j].(status := status)] else rows
  }

  /** The ids listed are exactly those of the rows that satisfy the query, each once. */
  ghost predicate Enumerates(ids: seq<JobId>, rows: map<JobId, Row>, q: Row -> bool) {
    && (forall j :: j in ids <==> j in rows && q(rows[j]))
    && (forall a, b | 0 <= a < b < |ids| :: ids[a] != ids[b])
  }

  function Resumable(): Row -> bool {
    (r: Row) => r.status in {Pending, Retrying}
  }

  function ToStop(p: PolicyId): Row -> bool {
    (r: Row) => r.policy == p && r.status in {Pending, Running}
  }

  predicate At(s: Service, w: nat) {
    w < |s.workers|
  }

  /** Steps of start-up; a crash comes before it. */
  predicate ByStart(step: Step) {
    step.BootUp? || step.ResetRunning? || step.ListJobs? || step.ResumeNext? || step.ResumeDone? || step.Crash?
  }

  /** Steps between a new job and the worker that takes it. */
  predicate ByQueue(step: Step) {
    step.Post? || step.Receive? || step.Wake? || step.Pick? || step.Hand? || step.Offer?
  }

  /** Steps of a worker that has a job. */
  predicate ByWorker(step: Step) {
    step.Take? || step.Read? || step.Finish? || step.Enter? || step.Look? || step.Clear?
  }

  ghost predicate StartEnabled(s: Service, step: Step)
    requires ByStart(step)
  {
    match step
    case BootUp(_) => s.boot == Down
    case ResetRunning => s.boot == Resetting
    case ListJobs(ids) => s.boot == Listing && Enumerates(ids, s.rows, Resumable())
    case ResumeNext => s.boot.Resuming? && s.boot.rest != []
    case ResumeDone => s.boot == Resuming([])
    case Crash => true
  }

  predicate QueueEnabled(s: Service, step: Step)
    requires ByQueue(step)
  {
    match step
    case Post(j, p, _) => s.boot == Serving && j !in s.rows && p in s.enabled
    case Receive(j) => j in s.scheduling
    case Wake(j) => j in s.sleeping
    case Pick(d) => d < |s.dispatchers| && s.dispatchers[d].Seeking? && s.free != []
    case Hand(d) =>
      && d < |s.dispatchers| && s.dispatchers[d].Handing?
      && At(s, s.dispatchers[d].worker) && s.workers[s.dispatchers[d].worker].stage == Listening
    case Offer(w) => At(s, w) && s.workers[w].stage == Offering && |s.free| < |s.workers|
  }

  predicate WorkerEnabled(s: Service, step: Step)
    requires ByWorker(step)
  {
    At(s, step.w) &&
    var stage := s.workers[step.w].stage;
    match step
    case Take(_) => stage.Taken?
    case Read(_, _) => stage.Reading?
    case Finish(_) => stage.Canceling? || stage.Failing?
    case Enter(_, o) =>
      && stage.Entering?
      && (o.Go? ==> o.next in Answers(stage.n))
      && (o.Fail? ==> Working(stage.n) && stage.n != Running)
    case Look(_) => stage.Looping?
    case Clear(_) => stage.Clearing?
  }

  ghost predicate StopEnabled(s: Service, step: Step)
    requires !ByStart(step) && !ByQueue(step) && !ByWorker(step)
  {
    match step
    case Ask(k, _) => s.boot == Serving && k !in s.stoppers
    case Query(k, ids) =>
      k in s.stoppers && s.stoppers[k].Asking? && Enumerates(ids, s.rows, ToStop(s.stoppers[k].policy))
    case Inspect(k) => k in s.stoppers && s.stoppers[k].Scanning? && s.stoppers[k].i < |s.stoppers[k].ids|
    case CallStop(k) =>
      && k in s.stoppers && s.stoppers[k].Calling? && At(s, s.stoppers[k].w)
      && s.stoppers[k].i < |s.stoppers[k].ids|
    case SetEnabled(_, _) => true
  }

  ghost predicate Enabled(s: Service, step: Step) {
    if ByStart(step) then StartEnabled(s, step)
    else if ByQueue(step) then QueueEnabled(s, step)
    else if ByWorker(step) then WorkerEnabled(s, step)
    else StopEnabled(s, step)
  }

  function WithStage(s: Service, w: nat, stage: Stage): Service
    requires At(s, w)
  {
    s.(workers := s.workers[w := s.workers[w].(stage := stage)])
  }

  /** Reset after the lock: reads the row and the policy. `loadable` is false when the target is
      missing or cannot be read. */
  function AfterRead(s: Service, j: JobId, loadable: bool): Stage {
    if j !in s.rows || s.rows[j].policy !in s.enabled then Failing(j)
    else if !s.enabled[s.rows[j].policy] then Canceling(j)
    else if !loadable || s.rows[j].operation.Unsupported? then Failing(j)
    else Entering(j, Pending, Running)
  }

  /** One call of EnterState, up to where Start looks at its answer; a run that is over leaves
      the worker free. */
  function EnterState(s: Service, w: nat, o: Outcome): Service
    requires At(s, w) && s.workers[w].stage.Entering?
  {
    var Entering(j, cur, n) := s.workers[w].stage;
    if j !in s.rows || !Legal(TableOf(s.rows[j].operation), cur, n) then WithStage(s, w, Entering(j, cur, Error))
    else if n in {Finished, Stopped, Error} then WithStage(s.(rows := SetStatus(s.rows, j, n)), w, Offering)
    else if n == Retrying then
      WithStage(s.(rows := SetStatus(s.rows, j, n), sleeping := s.sleeping + multiset{j}), w, Offering)
    else if o.Fail? then WithStage(s, w, Entering(j, cur, Error))
    else WithStage(if n == Running then s.(rows := SetStatus(s.rows, j, n)) else s, w, Looping(j, n, o.next))
  }

  /** The look at the desired state, and else the resolution of `_continue`. */
  function AfterLook(op: Operation, worker: Worker): Stage
    requires worker.stage.Looping?
  {
    var Looping(j, cur, n) := worker.stage;
    match LookAt(TableOf(op), cur, n, worker.desired)
    case GoFor(next) => if worker.desired != NoState then Clearing(j, cur) else Looping(j, cur, next)
    case EnterIt => Entering(j, cur, n)
    case Unable => Entering(j, cur, Error)
  }

  /** StopJobs looks at one more worker for one more id, without the lock of its machine. */
  function Inspected(s: Service, c: Stopper): Stopper
    requires c.Scanning? && c.i < |c.ids|
  {
    if c.w >= |s.workers| then Scanning(c.policy, c.ids, c.i + 1, 0)
    else if s.workers[c.w].jobID == c.ids[c.i] then Calling(c.policy, c.ids, c.i, c.w)
    else Scanning(c.policy, c.ids, c.i, c.w + 1)
  }

  /** Stop: under the lock, the machine may have gone on to another job. */
  function StopCalled(s: Service, k: nat): Service
    requires k in s.stoppers && s.stoppers[k].Calling? && At(s, s.stoppers[k].w)
    requires s.stoppers[k].i < |s.stoppers[k].ids|
  {
    var Calling(p, ids, i, w) := s.stoppers[k];
    var worker := s.workers[w];
    s.(stoppers := s.stoppers[k := Scanning(p, ids, i, w + 1)],
       workers := if worker.jobID == ids[i] then s.workers[w := worker.(desired := Stopped)] else s.workers)
  }

  ghost function ApplyStart(s: Service, step: Step): Service
    requires ByStart(step) && StartEnabled(s, step)
  {
    match step
    case BootUp(n) =>
      s.(boot := Resetting, workers := seq(n, _ => Worker(Offering, 0, NoState)))
    case ResetRunning =>
      s.(boot := Listing, rows := map j | j in s.rows ::
        if s.rows[j].status == Running then s.rows[j].(status := Pending) else s.rows[j])
    case ListJobs(ids) => s.(boot := Resuming(ids))
    case ResumeNext =>
      s.(boot := Resuming(s.boot.rest[1..]), dispatchers := s.dispatchers + [Seeking(s.boot.rest[0])])
    case ResumeDone => s.(boot := Serving)
    case Crash =>
      s.(boot := Down, scheduling := multiset{}, sleeping := multiset{}, dispatchers := [], free := [],
         workers := [], stoppers := map[])
  }

  function ApplyQueue(s: Service, step: Step): Service
    requires ByQueue(step) && QueueEnabled(s, step)
  {
    match step
    case Post(j, p, op) =>
      s.(rows := s.rows[j := Row(Pending, p, op)], scheduling := s.scheduling + multiset{j})
    case Receive(j) =>
      s.(scheduling := s.scheduling - multiset{j}, dispatchers := s.dispatchers + [Seeking(j)])
    case Wake(j) =>
      s.(sleeping := s.sleeping - multiset{j}, scheduling := s.scheduling + multiset{j})
    case Pick(d) =>
      s.(free := s.free[1..], dispatchers := s.dispatchers[d := Handing(s.dispatchers[d].job, s.free[0])])
    case Hand(d) =>
      var Handing(j, w) := s.dispatchers[d];
      WithStage(s.(dispatchers := s.dispatchers[..d] + s.dispatchers[d + 1..]), w, Taken(j))
    case Offer(w) => WithStage(s.(free := s.free + [w]), w, Listening)
  }

  function ApplyWorker(s: Service, step: Step): Service
    requires ByWorker(step) && WorkerEnabled(s, step)
  {
    var worker := s.workers[step.w];
    match step
    case Take(w) => s.(workers := s.workers[w := Worker(Reading(worker.stage.job), worker.stage.job, NoState)])
    case Read(w, loadable) => WithStage(s, w, AfterRead(s, worker.stage.job, loadable))
    case Finish(w) =>
      var status := if worker.stage.Canceling? then Canceled else Error;
      WithStage(s.(rows := SetStatus(s.rows, worker.stage.job, status)), w, Offering)
    case Enter(w, o) => EnterState(s, w, o)
    case Look(w) =>
      var j := worker.stage.job;
      WithStage(s, w, AfterLook(if j in s.rows then s.rows[j].operation else Transfer, worker))
    case Clear(w) =>
      var Clearing(j, cur) := worker.stage;
      s.(workers := s.workers[w := worker.(stage := Looping(j, cur, Stopped), desired := NoState)])
  }

  ghost function ApplyStop(s: Service, step: Step): Service
    requires !ByStart(step) && !ByQueue(step) && !ByWorker(step) && StopEnabled(s, step)
  {
    match step
    case Ask(k, p) => s.(stoppers := s.stoppers[k := Asking(p)])
    case Query(k, ids) => s.(stoppers := s.stoppers[k := Scanning(s.stoppers[k].policy, ids, 0, 0)])
    case Inspect(k) => s.(stoppers := s.stoppers[k := Inspected(s, s.stoppers[k])])
    case CallStop(k) => StopCalled(s, k)
    case SetEnabled(p, on) => s.(enabled := s.enabled[p := on])
  }

  ghost function Apply(s: Service, step: Step): Service
    requires Enabled(s, step)
  {
    if ByStart(step) then ApplyStart(s, step)
    else if ByQueue(step) then ApplyQueue(s, step)
    else if ByWorker(step) then ApplyWorker(s, step)
    else ApplyStop(s, step)
  }

  /** What start-up leaves alone. */
  lemma StartFrame(s: Service, step: Step)
    requires Enabled(s, step) && ByStart(step)
    ensures var s' := Apply(s, step);
      && s'.enabled == s.enabled
      && (!step.ResetRunning? ==> s'.rows == s.rows)
      && (!step.BootUp? && !step.Crash? ==> s'.workers == s.workers)
      && (!step.Crash? ==>
            s' == s.(boot := s'.boot, rows := s'.rows, workers := s'.workers, dispatchers := s'.dispatchers))
      && (!step.Crash? ==> s.dispatchers <= s'.dispatchers)
  {
    hide Enumerates;
  }

  lemma StageTouches(s: Service, w: nat, stage: Stage)
    requires At(s, w)
    ensures WithStage(s, w, stage) == s.(workers := s.workers[w := s.workers[w].(stage := stage)])
  {
  }

  lemma QueueApply(s: Service, step: Step)
    requires Enabled(s, step) && ByQueue(step)
    ensures QueueEnabled(s, step) && Apply(s, step) == ApplyQueue(s, step)
  {
    hide ApplyQueue, QueueEnabled;
  }

  /** What the queue leaves alone. */
  lemma QueueFrame(s: Service, step: Step)
    requires Enabled(s, step) && ByQueue(step)
    ensures var s' := Apply(s, step);
      && s'.boot == s.boot && s'.enabled == s.enabled && s'.stoppers == s.stoppers
      && (!step.Post? ==> s'.rows == s.rows)
      && (!step.Hand? && !step.Offer? ==> s'.workers == s.workers)
  {
    hide Enabled, Apply, WithStage;
    QueueApply(s, step);
    if step.Hand? {
      var Handing(j, w) := s.dispatchers[step.d];
      StageTouches(s.(dispatchers := s.dispatchers[..step.d] + s.dispatchers[step.d + 1..]), w, Stage.Taken(j));
    } else if step.Offer? {
      StageTouches(s.(free := s.free + [step.w]), step.w, Listening);
    }
  }

  /** A call of EnterState changes one stage, rows and sleeping jobs, and nothing else. */
  lemma EnterTouches(s: Service, w: nat, o: Outcome)
    requires At(s, w) && s.workers[w].stage.Entering?
    ensures var s' := EnterState(s, w, o);
      && s' == s.(rows := s'.rows, sleeping := s'.sleeping, workers := s'.workers) && s.sleeping <= s'.sleeping
      && |s'.workers| == |s.workers| && s'.workers == s.workers[w := s.workers[w].(stage := s'.workers[w].stage)]
  {
    hide Legal, TableOf, SetStatus;
  }

  /** Where it leads: out of the run, to the error state, or to the answer of the handler. */
  lemma EnterLeads(s: Service, w: nat, o: Outcome)
    requires At(s, w) && s.workers[w].stage.Entering?
    ensures var Entering(j, cur, n) := s.workers[w].stage; var stage := EnterState(s, w, o).workers[w].stage;
      || stage == Offering
      || (stage == Entering(j, cur, Error) && n !in {Finished, Stopped, Error, Retrying})
      || (stage == Entering(j, cur, Error) && (j !in s.rows || !Legal(TableOf(s.rows[j].operation), cur, n)))
      || (o.Go? && stage == Looping(j, n, o.next) && n !in {Finished, Stopped, Error, Retrying})
  {
    hide Legal, TableOf, SetStatus;
  }

  /** It leads to the error state only from a missing transition or with a failing handler. */
  lemma EnterFails(s: Service, w: nat, o: Outcome)
    requires At(s, w) && s.workers[w].stage.Entering?
    ensures var Entering(j, cur, n) := s.workers[w].stage; var stage := EnterState(s, w, o).workers[w].stage;
      || !stage.Entering?
      || j !in s.rows || !Legal(TableOf(s.rows[j].operation), cur, n)
      || (o.Fail? && stage == Entering(j, cur, Error))
    ensures var stage := EnterState(s, w, o).workers[w].stage;
      !stage.Failing? && (stage.Looping? ==> o.Go? && stage.n == o.next)
  {
    hide Legal, TableOf, SetStatus;
  }

  /** It writes at most the status it enters. */
  lemma EnterWrites(s: Service, w: nat, o: Outcome)
    requires At(s, w) && s.workers[w].stage.Entering?
    ensures var Entering(j, cur, n) := s.workers[w].stage; var rows := EnterState(s, w, o).rows;
      rows == s.rows || rows == SetStatus(s.rows, j, n)
  {
    hide Legal, TableOf, SetStatus;
  }

  lemma OwnApply(s: Service, step: Step)
    requires Enabled(s, step) && ByWorker(step)
    ensures WorkerEnabled(s, step) && Apply(s, step) == ApplyWorker(s, step)
  {
    hide ApplyWorker, WorkerEnabled;
  }

  lemma StopApply(s: Service, step: Step)
    requires Enabled(s, step) && !ByStart(step) && !ByQueue(step) && !ByWorker(step)
    ensures StopEnabled(s, step) && Apply(s, step) == ApplyStop(s, step)
  {
    hide ApplyStop, StopEnabled;
  }

  /** What a worker leaves alone. */
  lemma WorkerFrame(s: Service, step: Step)
    requires Enabled(s, step) && ByWorker(step)
    ensures var s' := Apply(s, step);
      && s' == s.(rows := s'.rows, sleeping := s'.sleeping, workers := s'.workers) && s.sleeping <= s'.sleeping
      && |s'.workers| == |s.workers| && s'.workers == s.workers[step.w := s'.workers[step.w]]
      && (!step.Finish? && !step.Enter? ==> s'.rows == s.rows)
  {
    hide EnterState, AfterLook, AfterRead, SetStatus, Answers;
    if step.Enter? { EnterTouches(s, step.w, step.o); }
  }

  /** What stop actions and policies leave alone. */
  lemma StopFrame(s: Service, step: Step)
    requires Enabled(s, step) && !ByStart(step) && !ByQueue(step) && !ByWorker(step)
    ensures var s' := Apply(s, step);
      && s' == s.(enabled := s'.enabled, stoppers := s'.stoppers, workers := s'.workers)
      && (!step.SetEnabled? ==> s'.enabled == s.enabled)
      && (!step.CallStop? ==> s'.workers == s.workers)
      && (step.SetEnabled? ==> s'.stoppers == s.stoppers)
  {
    hide Enumerates, Inspected;
  }

  /** The service before its first start, with whatever the database holds. */
  predicate Init(s: Service) {
    && s.boot == Down && s.scheduling == multiset{} && s.sleeping == multiset{}
    && s.dispatchers == [] && s.free == [] && s.workers == [] && s.stoppers == map[]
    && forall j | j in s.rows :: Unfinished(s.rows[j].status) || Terminal(s.rows[j].status)
  }

  /** A run: states linked by steps. */
  ghost predicate Run(ss: seq<Service>, steps: seq<Step>) {
    && |ss| == |steps| + 1
    && forall i | 0 <= i < |steps| :: Enabled(ss[i], steps[i]) && ss[i + 1] == Apply(ss[i], steps[i])
  }
}
