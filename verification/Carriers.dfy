/** Who holds which job: every unfinished job has exactly one carrier, every worker is in exactly
    one place, stop requests stay with the job they name, and all transitions are legal. */
module Carriers {
  import opened States
  import opened JobService

  /** What a goroutine holds: nothing or one id. */
  datatype Held = Nothing | Item(id: int)

  function One(h: Held): multiset<int> {
    if h.Item? then multiset{h.id} else multiset{}
  }

  /** Everything held by a row of goroutines, as often as it is held. */
  ghost function Bag(s: seq<Held>): multiset<int> {
    if s == [] then multiset{} else One(s[0]) + Bag(s[1..])
  }

  lemma {:induction false} BagSplit(s: seq<Held>, i: nat)
    requires i < |s|
    ensures Bag(s) == Bag(s[..i] + s[i + 1..]) + One(s[i])
  {
    var r := s[..i] + s[i + 1..];
    if i == 0 {
      assert r == s[1..];
    } else {
      BagSplit(s[1..], i - 1);
      assert r[1..] == s[1..][..i - 1] + s[1..][i..];
    }
  }

  lemma BagPush(s: seq<Held>, h: Held)
    ensures Bag(s + [h]) == Bag(s) + One(h)
  {
    BagSplit(s + [h], |s|);
    assert (s + [h])[..|s|] + (s + [h])[|s| + 1..] == s;
  }

  lemma BagUpdate(s: seq<Held>, i: nat, h: Held)
    requires i < |s|
    ensures Bag(s[i := h]) == Bag(s) - One(s[i]) + One(h)
    ensures One(s[i]) <= Bag(s)
  {
    BagSplit(s, i);
    BagSplit(s[i := h], i);
    assert s[i := h][..i] + s[i := h][i + 1..] == s[..i] + s[i + 1..];
  }

  /** Two different places with the same id count it twice. */
  lemma BagTwice(s: seq<Held>, i: nat, k: nat)
    requires i < k < |s| && s[i] == s[k] && s[i].Item?
    ensures Bag(s)[s[i].id] >= 2
  {
    BagSplit(s, i);
    var r := s[..i] + s[i + 1..];
    assert r[k - 1] == s[k];
    BagSplit(r, k - 1);
  }

  lemma {:induction false} BagFinds(s: seq<Held>, u: int) returns (i: nat)
    requires u in Bag(s)
    ensures i < |s| && s[i] == Item(u)
  {
    if s[0] == Item(u) { i := 0; } else { i := BagFinds(s[1..], u); i := i + 1; }
  }

  function JobAt(stage: Stage): Held {
    if stage.Offering? || stage.Listening? then Nothing else Item(stage.job)
  }

  ghost function WorkerJobs(ws: seq<Worker>): (r: seq<Held>)
    ensures |r| == |ws| && forall i | 0 <= i < |ws| :: r[i] == JobAt(ws[i].stage)
  {
    seq(|ws|, i requires 0 <= i < |ws| => JobAt(ws[i].stage))
  }

  ghost function DispatcherJobs(ds: seq<Dispatcher>): (r: seq<Held>)
    ensures |r| == |ds| && forall i | 0 <= i < |ds| :: r[i] == Item(ds[i].job)
  {
    seq(|ds|, i requires 0 <= i < |ds| => Item(ds[i].job))
  }

  ghost function DispatcherWorkers(ds: seq<Dispatcher>): (r: seq<Held>)
    ensures |r| == |ds| && forall i | 0 <= i < |ds| :: r[i] == if ds[i].Handing? then Item(ds[i].worker) else Nothing
  {
    seq(|ds|, i requires 0 <= i < |ds| => if ds[i].Handing? then Item(ds[i].worker) else Nothing)
  }

  lemma JobsUpdate(ws: seq<Worker>, w: nat, x: Worker)
    requires w < |ws|
    ensures WorkerJobs(ws[w := x]) == WorkerJobs(ws)[w := JobAt(x.stage)]
  {
    hide JobAt;
  }

  /** Worker `w` becomes `x`. */
  lemma WorkerChanges(ws: seq<Worker>, w: nat, x: Worker)
    requires w < |ws|
    ensures forall u :: Bag(WorkerJobs(ws[w := x]))[u] + One(JobAt(ws[w].stage))[u]
              == Bag(WorkerJobs(ws))[u] + One(JobAt(x.stage))[u]
    ensures One(JobAt(ws[w].stage)) <= Bag(WorkerJobs(ws))
    ensures JobAt(x.stage) == JobAt(ws[w].stage) ==> Bag(WorkerJobs(ws[w := x])) == Bag(WorkerJobs(ws))
  {
    hide Bag, WorkerJobs, JobAt, One;
    JobsUpdate(ws, w, x);
    BagUpdate(WorkerJobs(ws), w, JobAt(x.stage));
  }

  function Rest(b: Boot): seq<JobId> {
    if b.Resuming? then b.rest else []
  }

  /** What is queued or asleep, apart from the goroutines of Dispatch and the workers. */
  function Waiting(s: Service): multiset<JobId> {
    multiset(Rest(s.boot)) + s.scheduling + s.sleeping
  }

  lemma SameWaiting(s: Service, s': Service)
    requires s'.boot == s.boot && s'.scheduling == s.scheduling && s'.sleeping == s.sleeping
    ensures Waiting(s') == Waiting(s)
  {
  }

  /** Every job id some goroutine holds, as often as it is held. */
  ghost function Carried(s: Service): multiset<JobId> {
    Waiting(s) + Bag(DispatcherJobs(s.dispatchers)) + Bag(WorkerJobs(s.workers))
  }

  /** One carrier for an unfinished job, none for any other. */
  function Due(rows: map<JobId, Row>, j: JobId): nat {
    if j in rows && Unfinished(rows[j].status) then 1 else 0
  }

  predicate Up(s: Service) {
    s.boot.Resuming? || s.boot == Serving
  }

  predicate Known(rows: map<JobId, Row>) {
    forall j | j in rows :: Unfinished(rows[j].status) || Terminal(rows[j].status)
  }

  /** Every unfinished job is carried once, and no other id is. */
  ghost predicate Counted(s: Service) {
    forall j :: Carried(s)[j] == Due(s.rows, j)
  }

  /** How often worker `w` is in the channel of free workers or in the hands of a dispatcher. */
  ghost function PlacesOf(s: Service, w: nat): nat {
    multiset(s.free)[w] + Bag(DispatcherWorkers(s.dispatchers))[w]
  }

  function Listens(s: Service, w: nat): nat {
    if At(s, w) && s.workers[w].stage == Listening then 1 else 0
  }

  ghost predicate OnePlace(s: Service) {
    forall w: nat :: PlacesOf(s, w) == Listens(s, w)
  }

  /** The next state of a worker is one the tables know, and its job row is in step with it. The
      only request its machine can hold is to stop. */
  predicate Sound(rows: map<JobId, Row>, worker: Worker) {
    worker.desired in {NoState, Stopped} &&
    match worker.stage
    case Offering => true
    case Listening => true
    case Taken(j) => j in rows && rows[j].status != Running
    case Reading(j) => worker.jobID == j && j in rows && rows[j].status != Running
    case Canceling(j) => worker.jobID == j && j in rows && rows[j].status != Running
    case Failing(j) => worker.jobID == j && j in rows && rows[j].status != Running
    case Entering(j, cur, n) =>
      && worker.jobID == j && j in rows && !rows[j].operation.Unsupported?
      && n !in {NoState, Continue, Canceled} && Legal(TableOf(rows[j].operation), cur, n)
      && (n == Running <==> cur == Pending)
      && (if cur == Pending then rows[j].status != Running else Working(cur) && rows[j].status == Running)
    case Looping(j, cur, n) =>
      && worker.jobID == j && j in rows && !rows[j].operation.Unsupported? && rows[j].status == Running
      && Working(cur) && n !in {NoState, Running, Canceled}
      && (if n == Continue then cur == Running else Legal(TableOf(rows[j].operation), cur, n))
    case Clearing(j, cur) =>
      && worker.jobID == j && j in rows && !rows[j].operation.Unsupported? && rows[j].status == Running && Working(cur)
  }

  predicate AllSound(rows: map<JobId, Row>, workers: seq<Worker>) {
    forall w: nat | w < |workers| :: Sound(rows, workers[w])
  }

  /** A job that is `running` is in the hands of a worker. */
  ghost predicate RunningHeld(s: Service) {
    forall j | j in s.rows && s.rows[j].status == Running :: j in Bag(WorkerJobs(s.workers))
  }

  /** Until resumeJobs starts nobody holds a job. */
  ghost predicate Quiet(s: Service) {
    && Carried(s) == multiset{} && s.scheduling == multiset{} && s.sleeping == multiset{}
    && s.dispatchers == [] && s.stoppers == map[]
    && (s.boot == Down ==> s.workers == [] && s.free == [])
    && (s.boot == Listing ==> forall j | j in s.rows :: s.rows[j].status != Running)
  }

  ghost predicate Inv(s: Service) {
    && Known(s.rows) && OnePlace(s) && AllSound(s.rows, s.workers)
    && if Up(s) then Counted(s) && RunningHeld(s) else Quiet(s)
  }

  lemma CarriedAt(s: Service, j: JobId)
    ensures Carried(s)[j]
      == Waiting(s)[j] + Bag(DispatcherJobs(s.dispatchers))[j] + Bag(WorkerJobs(s.workers))[j]
  {
    hide Bag, Waiting;
  }

  lemma {:induction false} BagOfNothing(s: seq<Held>)
    requires forall i | 0 <= i < |s| :: s[i] == Nothing
    ensures Bag(s) == multiset{}
  {
    if s != [] { BagOfNothing(s[1..]); }
  }

  /** Workers that handle something handle different jobs. */
  lemma DifferentJobs(s: Service, w: nat, v: nat)
    requires Counted(s) && At(s, w) && At(s, v) && w < v
    requires JobAt(s.workers[w].stage).Item?
    ensures JobAt(s.workers[w].stage) != JobAt(s.workers[v].stage)
  {
    var j := s.workers[w].stage.job;
    assert Carried(s)[j] <= 1;
    CarriedAt(s, j);
    hide *;
    if JobAt(s.workers[w].stage) == JobAt(s.workers[v].stage) {
      BagTwice(WorkerJobs(s.workers), w, v);
    }
  }

  /** A worker that handles a job is the carrier of it. */
  lemma WorkerCarries(s: Service, w: nat)
    requires Inv(s) && At(s, w) && JobAt(s.workers[w].stage).Item?
    ensures Up(s) && var j := s.workers[w].stage.job; j in s.rows && Unfinished(s.rows[j].status)
  {
    var j := s.workers[w].stage.job;
    BagSplit(WorkerJobs(s.workers), w);
    CarriedAt(s, j);
    hide Bag, Carried, Known, OnePlace, AllSound, RunningHeld;
    assert JobAt(s.workers[w].stage) == Item(j);
    assert Carried(s)[j] > 0;
  }

  lemma SoundKept(rows: map<JobId, Row>, ws: seq<Worker>, w: nat, x: Worker)
    requires AllSound(rows, ws) && w < |ws| && Sound(rows, x)
    ensures AllSound(rows, ws[w := x])
  {
    hide Sound;
  }

  lemma PlacesKept(s: Service, s': Service)
    requires OnePlace(s) && forall w: nat :: PlacesOf(s', w) == PlacesOf(s, w) && Listens(s', w) == Listens(s, w)
    ensures OnePlace(s')
  {
    hide PlacesOf, Listens;
    forall w: nat ensures PlacesOf(s', w) == Listens(s', w) { assert PlacesOf(s, w) == Listens(s, w); }
  }

  lemma CountedKept(s: Service, s': Service)
    requires Counted(s) && s'.rows == s.rows && forall i :: Carried(s')[i] == Carried(s)[i]
    ensures Counted(s')
  {
    hide Carried, Due;
  }

  lemma RunningKept(s: Service, s': Service)
    requires RunningHeld(s) && s'.rows == s.rows
    requires forall j :: j in Bag(WorkerJobs(s.workers)) ==> j in Bag(WorkerJobs(s'.workers))
    ensures RunningHeld(s')
  {
    hide Bag;
  }

  lemma QuietKept(s: Service, s': Service, w: nat, x: Worker)
    requires Quiet(s) && !Up(s) && At(s, w) && Carried(s') == Carried(s)
    requires s' == s.(workers := s.workers[w := x], free := s'.free)
    ensures Quiet(s')
  {
    hide Carried;
  }

  /** One worker changes its stage but not its job. */
  lemma StageMoves(s: Service, w: nat, x: Worker, s': Service)
    requires Inv(s) && At(s, w) && s' == s.(workers := s.workers[w := x])
    requires JobAt(x.stage) == JobAt(s.workers[w].stage)
    requires x.stage == Listening <==> s.workers[w].stage == Listening
    requires Sound(s.rows, x)
    ensures Inv(s')
  {
    hide Known, OnePlace, AllSound, Counted, RunningHeld, Quiet, Sound, Bag, Due;
    SoundKept(s.rows, s.workers, w, x);
    assert WorkerJobs(s'.workers) == WorkerJobs(s.workers);
    assert Carried(s') == Carried(s);
    PlacesKept(s, s');
    hide Carried, Waiting, PlacesOf, Listens;
    if Up(s) { CountedKept(s, s'); RunningKept(s, s'); } else { QuietKept(s, s', w, x); }
  }

  /** Worker `w` writes `status` for its job and becomes `x`. A job whose run is over leaves the
      worker, for the rescheduler if it is to be retried. */
  predicate Writes(s: Service, w: nat, x: Worker, status: State, s': Service) {
    && At(s, w) && JobAt(s.workers[w].stage).Item?
    && s' == s.(workers := s.workers[w := x], rows := SetStatus(s.rows, s.workers[w].stage.job, status),
                sleeping := s.sleeping + if status == Retrying then multiset{s.workers[w].stage.job} else multiset{})
    && status != Pending && (Terminal(status) || Unfinished(status))
    && JobAt(x.stage) == (if status == Running then Item(s.workers[w].stage.job) else Nothing)
  }

  /** The carriers of job `i` after worker `w` has written a status. */
  lemma CarriersOfWritten(s: Service, w: nat, x: Worker, status: State, s': Service, i: JobId)
    requires Writes(s, w, x, status, s')
    requires s.workers[w].stage.job in s.rows && Unfinished(s.rows[s.workers[w].stage.job].status)
    requires Carried(s)[i] == Due(s.rows, i)
    ensures Carried(s')[i] == Due(s'.rows, i)
  {
    WorkerChanges(s.workers, w, x);
    CarriedAt(s, i);
    CarriedAt(s', i);
    hide Carried, Bag;
  }

  lemma CountedWritten(s: Service, w: nat, x: Worker, status: State, s': Service)
    requires Counted(s) && Writes(s, w, x, status, s')
    requires s.workers[w].stage.job in s.rows && Unfinished(s.rows[s.workers[w].stage.job].status)
    ensures Counted(s')
  {
    hide Carried, Due, Writes;
    forall i ensures Carried(s')[i] == Due(s'.rows, i) {
      assert Carried(s)[i] == Due(s.rows, i);
      CarriersOfWritten(s, w, x, status, s', i);
    }
  }

  lemma KnownWritten(rows: map<JobId, Row>, j: JobId, status: State)
    requires Known(rows) && (Terminal(status) || Unfinished(status))
    ensures Known(SetStatus(rows, j, status))
  {
  }

  lemma PlacesWritten(s: Service, w: nat, x: Worker, s': Service)
    requires OnePlace(s) && At(s, w) && JobAt(s.workers[w].stage).Item? && x.stage != Listening
    requires s'.workers == s.workers[w := x] && s'.free == s.free && s'.dispatchers == s.dispatchers
    ensures OnePlace(s')
  {
    hide OnePlace, Bag;
    PlacesKept(s, s');
  }

  lemma SoundWritten(s: Service, w: nat, x: Worker, status: State, s': Service)
    requires Counted(s) && AllSound(s.rows, s.workers) && Writes(s, w, x, status, s')
    requires Sound(s'.rows, x)
    ensures AllSound(s'.rows, s'.workers)
  {
    forall v: nat | v < |s'.workers| ensures Sound(s'.rows, s'.workers[v]) {
      if w < v { DifferentJobs(s, w, v); } else if v < w && JobAt(s.workers[v].stage).Item? { DifferentJobs(s, v, w); }
      assert v != w ==> Sound(s.rows, s.workers[v]);
      hide Counted, AllSound, Legal, TableOf, Working;
    }
  }

  lemma RunningHeldWritten(s: Service, w: nat, x: Worker, status: State, s': Service)
    requires RunningHeld(s) && Writes(s, w, x, status, s')
    ensures RunningHeld(s')
  {
    WorkerChanges(s.workers, w, x);
    hide Bag;
    forall j | j in s'.rows && s'.rows[j].status == Running ensures j in Bag(WorkerJobs(s'.workers)) {
      assert j != s.workers[w].stage.job ==> j in Bag(WorkerJobs(s.workers));
    }
  }

  lemma StatusWritten(s: Service, w: nat, x: Worker, status: State, s': Service)
    requires Inv(s) && Writes(s, w, x, status, s')
    requires Sound(s'.rows, x) && x.stage != Listening
    ensures Inv(s')
  {
    WorkerCarries(s, w);
    hide Known, OnePlace, AllSound, Counted, RunningHeld, Quiet, Sound, Bag, Due, Carried, PlacesOf, SetStatus;
    CountedWritten(s, w, x, status, s');
    SoundWritten(s, w, x, status, s');
    RunningHeldWritten(s, w, x, status, s');
    KnownWritten(s.rows, s.workers[w].stage.job, status);
    PlacesWritten(s, w, x, s');
  }

  lemma SoundAt(s: Service, w: nat)
    requires Inv(s) && At(s, w)
    ensures Sound(s.rows, s.workers[w])
  {
    hide Sound, OnePlace, Counted, RunningHeld, Quiet;
  }

  /** Entering a state that ends the run, or hands the job to the rescheduler. */
  lemma EnterEnds(s: Service, w: nat, n: State, s': Service)
    requires Inv(s) && At(s, w) && s.workers[w].stage.Entering? && s.workers[w].stage.n == n
    requires n in {Finished, Stopped, Error, Retrying}
    requires var j := s.workers[w].stage.job;
      s' == WithStage(s.(rows := SetStatus(s.rows, j, n),
                         sleeping := s.sleeping + if n == Retrying then multiset{j} else multiset{}), w, Offering)
    ensures Inv(s')
  {
    hide Inv, Legal, TableOf;
    SoundAt(s, w);
    StatusWritten(s, w, s.workers[w].(stage := Offering), n, s');
  }

  lemma EnterRunning(s: Service, w: nat, s': Service)
    requires Inv(s) && At(s, w) && s.workers[w].stage.Entering? && s.workers[w].stage.n == Running
    requires var j := s.workers[w].stage.job;
      s' == WithStage(s.(rows := SetStatus(s.rows, j, Running)), w, Looping(j, Running, Continue))
    ensures Inv(s')
  {
    hide Inv, Legal, TableOf;
    SoundAt(s, w);
    assert s.sleeping + multiset{} == s.sleeping;
    StatusWritten(s, w, s'.workers[w], Running, s');
  }

  lemma WorkIsSound(rows: map<JobId, Row>, worker: Worker, o: Outcome)
    requires Sound(rows, worker) && worker.stage.Entering?
    requires var Entering(j, cur, n) := worker.stage; Working(n) && n != Running && (o.Go? ==> o.next in Answers(n))
    ensures var Entering(j, cur, n) := worker.stage;
      Sound(rows, worker.(stage := if o.Fail? then Entering(j, cur, Error) else Looping(j, n, o.next)))
  {
    hide TableOf, Answers, Unfinished;
    var Entering(j, cur, n) := worker.stage;
    if o.Go? { AnswersAreLegal(rows[j].operation, cur, n, o.next); }
  }

  /** A working handler answers, or fails and makes the machine enter the error state. */
  lemma EnterWorks(s: Service, w: nat, o: Outcome, s': Service)
    requires Inv(s) && At(s, w) && s.workers[w].stage.Entering?
    requires var Entering(j, cur, n) := s.workers[w].stage;
      && Working(n) && n != Running && (o.Go? ==> o.next in Answers(n))
      && s' == WithStage(s, w, if o.Fail? then Entering(j, cur, Error) else Looping(j, n, o.next))
    ensures Inv(s')
  {
    hide Inv, Sound, Answers, Working;
    SoundAt(s, w);
    WorkIsSound(s.rows, s.workers[w], o);
    StageMoves(s, w, s'.workers[w], s');
  }

  lemma WorksOrEnds(table: Table, cur: State, n: State, op: Operation)
    requires table == TableOf(op) && Legal(table, cur, n)
    ensures Working(n) || n in {Finished, Stopped, Error, Retrying, Canceled}
  {
  }

  /** What the guard of a step of EnterState leaves: the transition is legal, so no step takes
      the branch for a missing one. */
  lemma EnterKeepsInv(s: Service, w: nat, o: Outcome)
    requires Inv(s) && At(s, w) && s.workers[w].stage.Entering?
    requires o.Go? ==> o.next in Answers(s.workers[w].stage.n)
    requires o.Fail? ==> Working(s.workers[w].stage.n) && s.workers[w].stage.n != Running
    ensures Inv(EnterState(s, w, o))
  {
    hide Inv, Legal, TableOf, WithStage, SetStatus;
    var Entering(j, cur, n) := s.workers[w].stage;
    SoundAt(s, w);
    WorksOrEnds(TableOf(s.rows[j].operation), cur, n, s.rows[j].operation);
    assert s.sleeping + multiset{} == s.sleeping;
    var s' := EnterState(s, w, o);
    if n in {Finished, Stopped, Error, Retrying} {
      EnterEnds(s, w, n, s');
    } else if n == Running {
      EnterRunning(s, w, s');
    } else {
      EnterWorks(s, w, o, s');
    }
  }

  lemma LookIsSound(rows: map<JobId, Row>, worker: Worker, op: Operation)
    requires Sound(rows, worker) && worker.stage.Looping?
    requires worker.stage.job in rows && op == rows[worker.stage.job].operation
    ensures Sound(rows, worker.(stage := AfterLook(op, worker)))
    ensures var Looping(j, cur, n) := worker.stage; var stage := AfterLook(op, worker);
      stage == Clearing(j, cur) || stage == Entering(j, cur, n) || (stage.Looping? && stage.job == j)
  {
    hide Targets, TRANSFER_TABLE, DELETE_TABLE, Unfinished;
    OneTargetOfRunning();
    TransferEdge(Running, Initialize);
    DeleteEdge(Running, State.Delete);
  }

  lemma LookKeepsInv(s: Service, w: nat, op: Operation)
    requires Inv(s) && At(s, w) && s.workers[w].stage.Looping?
    requires s.workers[w].stage.job in s.rows ==> op == s.rows[s.workers[w].stage.job].operation
    ensures Inv(WithStage(s, w, AfterLook(op, s.workers[w])))
  {
    hide Inv, AfterLook, Legal, TableOf;
    SoundAt(s, w);
    LookIsSound(s.rows, s.workers[w], op);
    var stage := AfterLook(op, s.workers[w]);
    hide Sound;
    StageMoves(s, w, s.workers[w].(stage := stage), WithStage(s, w, stage));
  }

  lemma ReadKeepsInv(s: Service, w: nat, loadable: bool)
    requires Inv(s) && At(s, w) && s.workers[w].stage.Reading?
    ensures Inv(WithStage(s, w, AfterRead(s, s.workers[w].stage.job, loadable)))
  {
    hide Inv;
    SoundAt(s, w);
    var stage := AfterRead(s, s.workers[w].stage.job, loadable);
    StageMoves(s, w, s.workers[w].(stage := stage), WithStage(s, w, stage));
  }

  lemma FinishKeepsInv(s: Service, w: nat, status: State, s': Service)
    requires Inv(s) && At(s, w) && (s.workers[w].stage.Canceling? || s.workers[w].stage.Failing?)
    requires status in {Canceled, Error}
    requires s' == WithStage(s.(rows := SetStatus(s.rows, s.workers[w].stage.job, status)), w, Offering)
    ensures Inv(s')
  {
    hide Inv;
    SoundAt(s, w);
    assert s.sleeping + multiset{} == s.sleeping;
    StatusWritten(s, w, s.workers[w].(stage := Offering), status, s');
  }

  lemma TakeKeepsInv(s: Service, w: nat, j: JobId, s': Service)
    requires Inv(s) && At(s, w) && s.workers[w].stage == Taken(j)
    requires s' == s.(workers := s.workers[w := Worker(Reading(j), j, NoState)])
    ensures Inv(s')
  {
    hide Inv;
    SoundAt(s, w);
    StageMoves(s, w, Worker(Reading(j), j, NoState), s');
  }

  lemma ClearKeepsInv(s: Service, w: nat, s': Service)
    requires Inv(s) && At(s, w) && s.workers[w].stage.Clearing?
    requires var Clearing(j, cur) := s.workers[w].stage;
      s' == s.(workers := s.workers[w := s.workers[w].(stage := Looping(j, cur, Stopped), desired := NoState)])
    ensures Inv(s')
  {
    hide Inv;
    SoundAt(s, w);
    StageMoves(s, w, s'.workers[w], s');
  }

  function WorkerIn(d: Dispatcher): Held {
    if d.Handing? then Item(d.worker) else Nothing
  }

  lemma DispatcherJoins(ds: seq<Dispatcher>, d: Dispatcher)
    ensures Bag(DispatcherJobs(ds + [d])) == Bag(DispatcherJobs(ds)) + multiset{d.job}
    ensures Bag(DispatcherWorkers(ds + [d])) == Bag(DispatcherWorkers(ds)) + One(WorkerIn(d))
  {
    hide Bag;
    assert DispatcherJobs(ds + [d]) == DispatcherJobs(ds) + [Item(d.job)];
    assert DispatcherWorkers(ds + [d]) == DispatcherWorkers(ds) + [WorkerIn(d)];
    BagPush(DispatcherJobs(ds), Item(d.job));
    BagPush(DispatcherWorkers(ds), WorkerIn(d));
  }

  lemma DispatcherPicks(ds: seq<Dispatcher>, i: nat, w: nat)
    requires i < |ds| && ds[i].Seeking?
    ensures Bag(DispatcherJobs(ds[i := Handing(ds[i].job, w)])) == Bag(DispatcherJobs(ds))
    ensures Bag(DispatcherWorkers(ds[i := Handing(ds[i].job, w)])) == Bag(DispatcherWorkers(ds)) + multiset{w}
  {
    hide Bag;
    assert DispatcherJobs(ds[i := Handing(ds[i].job, w)]) == DispatcherJobs(ds);
    assert DispatcherWorkers(ds[i := Handing(ds[i].job, w)]) == DispatcherWorkers(ds)[i := Item(w)];
    BagUpdate(DispatcherWorkers(ds), i, Item(w));
  }

  lemma DispatcherLeaves(ds: seq<Dispatcher>, i: nat)
    requires i < |ds|
    ensures Bag(DispatcherJobs(ds)) == Bag(DispatcherJobs(ds[..i] + ds[i + 1..])) + multiset{ds[i].job}
    ensures Bag(DispatcherWorkers(ds)) == Bag(DispatcherWorkers(ds[..i] + ds[i + 1..])) + One(WorkerIn(ds[i]))
  {
    hide Bag;
    var rest := ds[..i] + ds[i + 1..];
    assert DispatcherJobs(rest) == DispatcherJobs(ds)[..i] + DispatcherJobs(ds)[i + 1..];
    assert DispatcherWorkers(rest) == DispatcherWorkers(ds)[..i] + DispatcherWorkers(ds)[i + 1..];
    BagSplit(DispatcherJobs(ds), i);
    BagSplit(DispatcherWorkers(ds), i);
  }

  /** Jobs and workers change hands, but everything that was held still is. */
  lemma Rearranged(s: Service, s': Service)
    requires Inv(s) && Up(s) && Up(s') && s'.rows == s.rows
    requires forall i :: Carried(s')[i] == Carried(s)[i]
    requires OnePlace(s') && AllSound(s'.rows, s'.workers)
    requires forall j :: j in Bag(WorkerJobs(s.workers)) ==> j in Bag(WorkerJobs(s'.workers))
    ensures Inv(s')
  {
    hide Known, OnePlace, AllSound, Counted, RunningHeld, Bag, Carried;
    CountedKept(s, s');
    RunningKept(s, s');
  }

  /** An id waiting at the queue goes to a new goroutine of Dispatch. */
  lemma Joins(s: Service, j: JobId, s': Service)
    requires Inv(s) && Up(s) && Up(s') && s'.rows == s.rows && s'.workers == s.workers && s'.free == s.free
    requires s'.dispatchers == s.dispatchers + [Seeking(j)] && Waiting(s) == Waiting(s') + multiset{j}
    ensures Inv(s')
  {
    DispatcherJoins(s.dispatchers, Seeking(j));
    hide Known, OnePlace, AllSound, Counted, RunningHeld, Quiet, Bag, Waiting;
    forall i ensures Carried(s')[i] == Carried(s)[i] {
      CarriedAt(s, i);
      CarriedAt(s', i);
      hide *;
    }
    assert multiset{} + Bag(DispatcherWorkers(s.dispatchers)) == Bag(DispatcherWorkers(s'.dispatchers));
    PlacesKept(s, s');
    hide Carried;
    Rearranged(s, s');
  }

  lemma Wakes(s: Service, j: JobId, s': Service)
    requires Inv(s) && Up(s) && j in s.sleeping
    requires s' == s.(sleeping := s.sleeping - multiset{j}, scheduling := s.scheduling + multiset{j})
    ensures Inv(s')
  {
    hide Known, OnePlace, AllSound, Counted, RunningHeld, Quiet, Bag;
    assert Waiting(s') == Waiting(s);
    PlacesKept(s, s');
    Rearranged(s, s');
  }

  lemma PickedPlaces(s: Service, d: nat, w: nat, rest: seq<nat>, s': Service)
    requires OnePlace(s) && d < |s.dispatchers| && s.dispatchers[d].Seeking? && s.free == [w] + rest
    requires s' == s.(free := rest, dispatchers := s.dispatchers[d := Handing(s.dispatchers[d].job, w)])
    ensures OnePlace(s')
  {
    hide Bag, OnePlace;
    DispatcherPicks(s.dispatchers, d, w);
    assert multiset(s.free) == multiset{w} + multiset(rest);
    PlacesKept(s, s');
  }

  /** A goroutine of Dispatch receives a free worker. */
  lemma Picks(s: Service, d: nat, w: nat, rest: seq<nat>, s': Service)
    requires Inv(s) && Up(s) && d < |s.dispatchers| && s.dispatchers[d].Seeking? && s.free == [w] + rest
    requires s' == s.(free := rest, dispatchers := s.dispatchers[d := Handing(s.dispatchers[d].job, w)])
    ensures Inv(s')
  {
    hide Known, OnePlace, AllSound, Counted, RunningHeld, Quiet;
    hide Bag, DispatcherJobs, DispatcherWorkers, WorkerJobs, Waiting;
    DispatcherPicks(s.dispatchers, d, w);
    SameWaiting(s, s');
    assert Carried(s') == Carried(s);
    hide Carried;
    PickedPlaces(s, d, w, rest, s');
    Rearranged(s, s');
  }

  lemma HandMovesPlace(s: Service, d: nat, x: Worker, w: nat, s': Service, v: nat)
    requires d < |s.dispatchers| && s.dispatchers[d].Handing? && s.dispatchers[d].worker == w
    requires At(s, w) && s.workers[w].stage == Listening && x.stage != Listening
    requires s' == s.(workers := s.workers[w := x], dispatchers := s.dispatchers[..d] + s.dispatchers[d + 1..])
    requires PlacesOf(s, v) == Listens(s, v)
    ensures PlacesOf(s', v) == Listens(s', v)
  {
    DispatcherLeaves(s.dispatchers, d);
    hide Bag;
  }

  lemma HandedPlaces(s: Service, d: nat, w: nat, x: Worker, s': Service)
    requires OnePlace(s) && d < |s.dispatchers| && s.dispatchers[d].Handing? && s.dispatchers[d].worker == w
    requires At(s, w) && s.workers[w].stage == Listening && x.stage != Listening
    requires s' == s.(workers := s.workers[w := x], dispatchers := s.dispatchers[..d] + s.dispatchers[d + 1..])
    ensures OnePlace(s')
  {
    hide PlacesOf, Listens;
    forall v: nat ensures PlacesOf(s', v) == Listens(s', v) { HandMovesPlace(s, d, x, w, s', v); }
  }

  lemma HandMovesJob(s: Service, d: nat, x: Worker, w: nat, s': Service, i: JobId)
    requires d < |s.dispatchers| && At(s, w) && JobAt(s.workers[w].stage) == Nothing
    requires JobAt(x.stage) == Item(s.dispatchers[d].job)
    requires s' == s.(workers := s.workers[w := x], dispatchers := s.dispatchers[..d] + s.dispatchers[d + 1..])
    ensures Carried(s')[i] == Carried(s)[i]
    ensures i in Bag(WorkerJobs(s.workers)) ==> i in Bag(WorkerJobs(s'.workers))
  {
    hide Bag, Carried, Waiting, DispatcherJobs, DispatcherWorkers, WorkerJobs, JobAt, WorkerIn;
    DispatcherLeaves(s.dispatchers, d);
    WorkerChanges(s.workers, w, x);
    SameWaiting(s, s');
    CarriedAt(s, i);
    CarriedAt(s', i);
  }

  /** The job a dispatcher holds is waiting, not running. */
  lemma HeldByDispatcher(s: Service, d: nat)
    requires Inv(s) && Up(s) && d < |s.dispatchers|
    ensures var j := s.dispatchers[d].job; j in s.rows && s.rows[j].status in {Pending, Retrying}
  {
    var j := s.dispatchers[d].job;
    DispatcherLeaves(s.dispatchers, d);
    CarriedAt(s, j);
    hide Known, OnePlace, AllSound, Quiet, Bag, Carried;
    assert Carried(s)[j] == Due(s.rows, j);
    assert j in s.rows && s.rows[j].status == Running ==> j in Bag(WorkerJobs(s.workers));
  }

  /** The rendezvous of a dispatcher with a listening worker. */
  lemma Hands(s: Service, d: nat, w: nat, x: Worker, s': Service)
    requires Inv(s) && Up(s) && d < |s.dispatchers| && s.dispatchers[d].Handing? && s.dispatchers[d].worker == w
    requires At(s, w) && s.workers[w].stage == Listening && x == s.workers[w].(stage := Taken(s.dispatchers[d].job))
    requires s' == s.(workers := s.workers[w := x], dispatchers := s.dispatchers[..d] + s.dispatchers[d + 1..])
    ensures Inv(s')
  {
    hide Known, OnePlace, AllSound, Counted, RunningHeld, Quiet, Bag, Carried, PlacesOf, Waiting, Due;
    HandedPlaces(s, d, w, x, s');
    HeldByDispatcher(s, d);
    SoundAt(s, w);
    SoundKept(s.rows, s.workers, w, x);
    hide Sound;
    forall i
      ensures Carried(s')[i] == Carried(s)[i]
      ensures i in Bag(WorkerJobs(s.workers)) ==> i in Bag(WorkerJobs(s'.workers))
    {
      HandMovesJob(s, d, x, w, s', i);
    }
    Rearranged(s, s');
  }

  lemma OfferMovesPlace(s: Service, w: nat, x: Worker, s': Service, v: nat)
    requires At(s, w) && s.workers[w].stage != Listening && x.stage == Listening
    requires s' == s.(workers := s.workers[w := x], free := s.free + [w])
    requires PlacesOf(s, v) == Listens(s, v)
    ensures PlacesOf(s', v) == Listens(s', v)
  {
    hide Bag;
  }

  lemma OfferedPlaces(s: Service, w: nat, x: Worker, s': Service)
    requires OnePlace(s) && At(s, w) && s.workers[w].stage != Listening && x.stage == Listening
    requires s' == s.(workers := s.workers[w := x], free := s.free + [w])
    ensures OnePlace(s')
  {
    hide PlacesOf, Listens;
    forall v: nat ensures PlacesOf(s', v) == Listens(s', v) { OfferMovesPlace(s, w, x, s', v); }
  }

  /** A worker puts itself into the channel of free workers. */
  lemma Offers(s: Service, w: nat, x: Worker, s': Service)
    requires Inv(s) && At(s, w) && s.workers[w].stage == Offering && x == s.workers[w].(stage := Listening)
    requires s' == s.(workers := s.workers[w := x], free := s.free + [w])
    ensures Inv(s')
  {
    hide Known, OnePlace, AllSound, Counted, RunningHeld, Quiet, Bag, PlacesOf, Due;
    OfferedPlaces(s, w, x, s');
    SoundAt(s, w);
    SoundKept(s.rows, s.workers, w, x);
    assert WorkerJobs(s'.workers) == WorkerJobs(s.workers);
    assert Carried(s') == Carried(s);
    hide Carried, Waiting, Sound, Listens;
    if Up(s) { CountedKept(s, s'); RunningKept(s, s'); } else { QuietKept(s, s', w, x); }
  }

  /** A state in which nobody holds anything and start-up has not got to resumeJobs. */
  lemma NothingHeld(s: Service)
    requires s.boot in {Down, Resetting} && s.scheduling == multiset{} && s.sleeping == multiset{}
    requires s.dispatchers == [] && s.free == [] && s.stoppers == map[] && (s.boot == Down ==> s.workers == [])
    requires Known(s.rows)
    requires forall w: nat | At(s, w) :: s.workers[w] == Worker(Offering, 0, NoState)
    ensures Inv(s)
  {
    BagOfNothing(WorkerJobs(s.workers));
    BagOfNothing(DispatcherJobs(s.dispatchers));
    BagOfNothing(DispatcherWorkers(s.dispatchers));
    hide Bag, Known;
  }

  lemma SoundWhenIdle(s: Service, rows: map<JobId, Row>)
    requires Inv(s) && s.boot == Resetting
    ensures AllSound(rows, s.workers)
  {
    forall w: nat | w < |s.workers| ensures Sound(rows, s.workers[w]) {
      if JobAt(s.workers[w].stage).Item? { WorkerCarries(s, w); }
      SoundAt(s, w);
      hide Inv, Legal, TableOf;
    }
  }

  /** ResetRunningJobs: no worker has a job yet, and no row stays `running`. */
  lemma Resets(s: Service, s': Service)
    requires Inv(s) && s.boot == Resetting
    requires s' == s.(boot := Listing, rows := map j | j in s.rows ::
        if s.rows[j].status == Running then s.rows[j].(status := Pending) else s.rows[j])
    ensures Inv(s')
  {
    hide OnePlace, AllSound, Counted, RunningHeld, Bag, PlacesOf;
    SoundWhenIdle(s, s'.rows);
    assert Carried(s') == Carried(s);
    hide Carried;
    PlacesKept(s, s') by { assert forall w: nat :: PlacesOf(s', w) == PlacesOf(s, w) by { SamePlaces(s, s'); } }
    assert Known(s'.rows) by { hide Quiet; }
    hide Known;
  }

  lemma SamePlaces(s: Service, s': Service)
    requires s'.free == s.free && s'.dispatchers == s.dispatchers
    ensures forall w: nat :: PlacesOf(s', w) == PlacesOf(s, w)
  {
  }

  lemma {:induction false} CountOfDistinct(ids: seq<JobId>, j: JobId)
    requires forall a, b | 0 <= a < b < |ids| :: ids[a] != ids[b]
    ensures multiset(ids)[j] == if j in ids then 1 else 0
  {
    if ids != [] {
      assert ids == [ids[0]] + ids[1..];
      CountOfDistinct(ids[1..], j);
    }
  }

  /** resumeJobs takes up every unfinished job once. */
  lemma ListedOnce(s: Service, ids: seq<JobId>, j: JobId)
    requires Quiet(s) && s.boot == Listing && Known(s.rows) && Enumerates(ids, s.rows, Resumable())
    ensures Carried(s.(boot := Resuming(ids)))[j] == Due(s.rows, j)
  {
    var s' := s.(boot := Resuming(ids));
    CountOfDistinct(ids, j);
    CarriedAt(s, j);
    CarriedAt(s', j);
    hide Carried, Bag;
    assert Waiting(s')[j] == multiset(ids)[j];
  }

  lemma ListedCounted(s: Service, ids: seq<JobId>, s': Service)
    requires Quiet(s) && s.boot == Listing && Known(s.rows) && Enumerates(ids, s.rows, Resumable())
    requires s' == s.(boot := Resuming(ids))
    ensures Counted(s')
  {
    hide Carried, Due, Quiet, Known, Enumerates;
    forall j ensures Carried(s')[j] == Due(s'.rows, j) { ListedOnce(s, ids, j); }
  }

  lemma ListedNoneRunning(s: Service, s': Service)
    requires Quiet(s) && s.boot == Listing && s'.rows == s.rows
    ensures RunningHeld(s')
  {
    hide Carried, Bag;
  }

  lemma Lists(s: Service, ids: seq<JobId>, s': Service)
    requires Inv(s) && s.boot == Listing && Enumerates(ids, s.rows, Resumable()) && s' == s.(boot := Resuming(ids))
    ensures Inv(s')
  {
    hide Known, OnePlace, AllSound, Counted, RunningHeld, Bag, Carried, PlacesOf, Due, Enumerates;
    SamePlaces(s, s');
    PlacesKept(s, s');
    ListedCounted(s, ids, s');
    ListedNoneRunning(s, s');
    hide Quiet;
  }

  lemma PostedCarried(s: Service, j: JobId, row: Row, s': Service, i: JobId)
    requires Carried(s)[i] == Due(s.rows, i) && j !in s.rows && row.status == Pending
    requires s' == s.(rows := s.rows[j := row], scheduling := s.scheduling + multiset{j})
    ensures Carried(s')[i] == Due(s'.rows, i)
  {
    CarriedAt(s, i);
    CarriedAt(s', i);
    hide Carried, Bag;
  }

  lemma PostedCounted(s: Service, j: JobId, row: Row, s': Service)
    requires Counted(s) && j !in s.rows && row.status == Pending
    requires s' == s.(rows := s.rows[j := row], scheduling := s.scheduling + multiset{j})
    ensures Counted(s')
  {
    hide Carried, Due;
    forall i ensures Carried(s')[i] == Due(s'.rows, i) {
      assert Carried(s)[i] == Due(s.rows, i);
      PostedCarried(s, j, row, s', i);
    }
  }

  lemma PostedRunning(s: Service, j: JobId, row: Row, s': Service)
    requires RunningHeld(s) && row.status == Pending
    requires s'.rows == s.rows[j := row] && s'.workers == s.workers
    ensures RunningHeld(s')
  {
    hide Bag;
  }

  lemma PostedKnown(rows: map<JobId, Row>, j: JobId, row: Row)
    requires Known(rows) && row.status == Pending
    ensures Known(rows[j := row])
  {
  }

  lemma PostedSound(s: Service, j: JobId, row: Row)
    requires AllSound(s.rows, s.workers) && j !in s.rows
    ensures AllSound(s.rows[j := row], s.workers)
  {
    hide Legal, TableOf, Working;
    forall w: nat | At(s, w) ensures Sound(s.rows[j := row], s.workers[w]) {
      assert Sound(s.rows, s.workers[w]);
    }
  }

  /** A new row and its blocked call of Schedule. */
  lemma Posts(s: Service, j: JobId, row: Row, s': Service)
    requires Inv(s) && Up(s) && j !in s.rows && row.status == Pending
    requires s' == s.(rows := s.rows[j := row], scheduling := s.scheduling + multiset{j})
    ensures Inv(s')
  {
    hide Known, OnePlace, AllSound, Counted, RunningHeld, Quiet, Bag, Carried, PlacesOf, Due;
    PostedCounted(s, j, row, s');
    PostedSound(s, j, row);
    PostedRunning(s, j, row, s');
    PostedKnown(s.rows, j, row);
    SamePlaces(s, s');
    PlacesKept(s, s');
  }

  /** Policies, stop actions and the end of resumeJobs hold no job. */
  lemma Elsewhere(s: Service, s': Service)
    requires Inv(s) && Up(s') == Up(s) && Rest(s'.boot) == Rest(s.boot)
    requires Up(s) || (s'.stoppers == s.stoppers && s'.boot == s.boot)
    requires s' == s.(enabled := s'.enabled, stoppers := s'.stoppers, boot := s'.boot)
    ensures Inv(s')
  {
    hide Known, OnePlace, AllSound, Counted, RunningHeld, Quiet, Bag, PlacesOf, Due;
    assert Carried(s') == Carried(s);
    SamePlaces(s, s');
    hide Carried, Waiting;
    PlacesKept(s, s');
    if Up(s) {
      CountedKept(s, s');
      RunningKept(s, s');
    } else {
      assert s'.stoppers == s.stoppers && s'.boot == s.boot;
      QuietIgnoresPolicies(s, s');
    }
  }

  lemma QuietIgnoresPolicies(s: Service, s': Service)
    requires Quiet(s) && s' == s.(enabled := s'.enabled) && Carried(s') == Carried(s)
    ensures Quiet(s')
  {
    hide Carried;
  }

  /** A stop action calls Stop on a machine, which compares the ids under its lock. */
  lemma CallsStop(s: Service, w: nat, s': Service)
    requires Inv(s) && Up(s) && At(s, w)
    requires s' == s.(stoppers := s'.stoppers, workers := s.workers[w := s.workers[w].(desired := Stopped)])
    ensures Inv(s')
  {
    hide Inv, Legal, TableOf;
    var x := s.workers[w].(desired := Stopped);
    SoundAt(s, w);
    StageMoves(s, w, x, s.(workers := s.workers[w := x]));
    Elsewhere(s.(workers := s.workers[w := x]), s');
  }

  lemma InvStarts(s: Service)
    requires Init(s)
    ensures Inv(s)
  {
    NothingHeld(s);
  }

  /** While start-up has not got to resumeJobs, nobody holds anything. */
  lemma UpFrom(s: Service)
    requires Inv(s)
    ensures s.scheduling != multiset{} || s.sleeping != multiset{} || s.dispatchers != [] ==> Up(s)
    ensures s.stoppers != map[] ==> Up(s)
    ensures Known(s.rows)
  {
    hide OnePlace, AllSound, Counted, RunningHeld, Known, Carried;
  }

  /** Before the service starts there is nothing to hold. */
  lemma NothingYet(s: Service)
    requires Inv(s) && s.boot == Down
    ensures s.workers == [] && s.free == [] && s.dispatchers == [] && s.stoppers == map[]
    ensures s.scheduling == multiset{} && s.sleeping == multiset{}
  {
    hide OnePlace, AllSound, Counted, RunningHeld, Known, Carried;
  }

  lemma WorkerKeepsInv(s: Service, step: Step)
    requires Inv(s) && Enabled(s, step) && ByWorker(step)
    ensures Inv(Apply(s, step))
  {
    hide Inv, Enabled, Apply, EnterState, AfterLook, AfterRead, SetStatus, Answers;
    OwnApply(s, step);
    var s' := Apply(s, step);
    match step
    case Take(w) => TakeKeepsInv(s, w, s.workers[w].stage.job, s');
    case Read(w, loadable) => ReadKeepsInv(s, w, loadable);
    case Finish(w) => FinishKeepsInv(s, w, if s.workers[w].stage.Canceling? then Canceled else Error, s');
    case Enter(w, o) => EnterKeepsInv(s, w, o);
    case Look(w) =>
      var j := s.workers[w].stage.job;
      LookKeepsInv(s, w, if j in s.rows then s.rows[j].operation else Transfer);
    case Clear(w) => ClearKeepsInv(s, w, s');
  }

  lemma StartKeepsInv(s: Service, step: Step)
    requires Inv(s) && Enabled(s, step) && (step.BootUp? || step.ResetRunning? || step.Crash?)
    ensures Inv(Apply(s, step))
  {
    hide Inv, Known;
    UpFrom(s);
    if step.BootUp? { NothingYet(s); }
    if step.ResetRunning? { Resets(s, Apply(s, step)); } else { NothingHeld(Apply(s, step)); }
  }

  lemma ResumeKeepsInv(s: Service, step: Step)
    requires Inv(s) && Enabled(s, step) && (step.ListJobs? || step.ResumeNext? || step.ResumeDone?)
    ensures Inv(Apply(s, step))
  {
    hide Inv, Enumerates;
    var s' := Apply(s, step);
    if step.ListJobs? {
      Lists(s, step.ids, s');
    } else if step.ResumeDone? {
      Elsewhere(s, s');
    } else {
      assert s.boot.rest == [s.boot.rest[0]] + s.boot.rest[1..];
      Joins(s, s.boot.rest[0], s');
    }
  }

  lemma JobKeepsInv(s: Service, step: Step)
    requires Inv(s) && Enabled(s, step) && (step.Post? || step.Receive? || step.Wake?)
    ensures Inv(Apply(s, step))
  {
    hide Inv, Enabled, Apply, Known;
    QueueApply(s, step);
    UpFrom(s);
    var s' := Apply(s, step);
    match step
    case Post(j, p, op) => Posts(s, j, Row(Pending, p, op), s');
    case Receive(j) => Joins(s, j, s');
    case Wake(j) => Wakes(s, j, s');
  }

  lemma PickKeepsInv(s: Service, d: nat)
    requires Inv(s) && Enabled(s, Pick(d))
    ensures Inv(Apply(s, Pick(d)))
  {
    hide Inv, Enabled, Apply, Known;
    QueueApply(s, Pick(d));
    UpFrom(s);
    Picks(s, d, s.free[0], s.free[1..], Apply(s, Pick(d)));
  }

  lemma HandKeepsInv(s: Service, d: nat)
    requires Inv(s) && Enabled(s, Hand(d))
    ensures Inv(Apply(s, Hand(d)))
  {
    hide Inv, Enabled, Apply, Known;
    QueueApply(s, Hand(d));
    UpFrom(s);
    var Handing(j, w) := s.dispatchers[d];
    Hands(s, d, w, s.workers[w].(stage := Taken(j)), Apply(s, Hand(d)));
  }

  lemma OfferKeepsInv(s: Service, w: nat)
    requires Inv(s) && Enabled(s, Offer(w))
    ensures Inv(Apply(s, Offer(w)))
  {
    hide Inv, Enabled, Apply;
    QueueApply(s, Offer(w));
    Offers(s, w, s.workers[w].(stage := Listening), Apply(s, Offer(w)));
  }

  lemma QueueKeepsInv(s: Service, step: Step)
    requires Inv(s) && Enabled(s, step) && ByQueue(step)
    ensures Inv(Apply(s, step))
  {
    hide Inv, Enabled, Apply;
    match step
    case Pick(d) => PickKeepsInv(s, d);
    case Hand(d) => HandKeepsInv(s, d);
    case Offer(w) => OfferKeepsInv(s, w);
    case _ => JobKeepsInv(s, step);
  }

  lemma StopKeepsInv(s: Service, step: Step)
    requires Inv(s) && Enabled(s, step) && !ByStart(step) && !ByQueue(step) && !ByWorker(step)
    ensures Inv(Apply(s, step))
  {
    hide Inv, Enabled, Apply, Enumerates, Known, Inspected;
    StopApply(s, step);
    UpFrom(s);
    var s' := Apply(s, step);
    if s'.workers == s.workers { Elsewhere(s, s'); } else { CallsStop(s, s.stoppers[step.k].w, s'); }
  }

  /** Every step of every goroutine, and a crash at any moment, keeps the invariant. */
  lemma InvKept(s: Service, step: Step)
    requires Inv(s) && Enabled(s, step)
    ensures Inv(Apply(s, step))
  {
    hide Inv, Enabled, Apply;
    if ByWorker(step) {
      WorkerKeepsInv(s, step);
    } else if ByQueue(step) {
      QueueKeepsInv(s, step);
    } else if step.BootUp? || step.ResetRunning? || step.Crash? {
      StartKeepsInv(s, step);
    } else if ByStart(step) {
      ResumeKeepsInv(s, step);
    } else {
      StopKeepsInv(s, step);
    }
  }
}
