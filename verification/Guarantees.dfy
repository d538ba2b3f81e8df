/** What the job service guarantees over whole runs, crashes and restarts included. */
module Guarantees {
  import opened States
  import opened JobService
  import opened Carriers
  import Sets

  lemma StepOf(ss: seq<Service>, steps: seq<Step>, i: nat)
    requires Run(ss, steps) && 0 < i < |ss|
    ensures |ss| == |steps| + 1
    ensures Enabled(ss[i - 1], steps[i - 1]) && ss[i] == Apply(ss[i - 1], steps[i - 1])
  {
    hide Enabled, Apply;
    assert ss[i - 1 + 1] == ss[i];
  }

  lemma {:induction false} InvAlways(ss: seq<Service>, steps: seq<Step>, i: nat)
    requires Run(ss, steps) && Init(ss[0]) && i < |ss|
    ensures Inv(ss[i])
  {
    if i == 0 {
      InvStarts(ss[0]);
    } else {
      hide Run, Enabled, Apply, Inv;
      InvAlways(ss, steps, i - 1);
      StepOf(ss, steps, i);
      InvKept(ss[i - 1], steps[i - 1]);
    }
  }

  /** The places where a job can be while the service is up. */
  datatype Place = BlockedInSchedule | Asleep | WithDispatcher(d: nat) | AtWorker(w: nat)

  ghost predicate HeldAt(s: Service, p: Place, j: JobId) {
    match p
    case BlockedInSchedule => j in s.scheduling
    case Asleep => j in s.sleeping
    case WithDispatcher(d) => d < |s.dispatchers| && s.dispatchers[d].job == j
    case AtWorker(w) => At(s, w) && JobAt(s.workers[w].stage) == Item(j)
  }

  /** How often a place counts in `Carried`. */
  ghost function Share(s: Service, p: Place, j: JobId): nat {
    match p
    case BlockedInSchedule => s.scheduling[j]
    case Asleep => s.sleeping[j]
    case WithDispatcher(d) => if HeldAt(s, p, j) then Bag(DispatcherJobs(s.dispatchers))[j] else 0
    case AtWorker(w) => if HeldAt(s, p, j) then Bag(WorkerJobs(s.workers))[j] else 0
  }

  lemma ShareOfHolder(s: Service, p: Place, j: JobId)
    requires HeldAt(s, p, j)
    ensures 1 <= Share(s, p, j) <= Carried(s)[j]
  {
    CarriedAt(s, j);
    if p.WithDispatcher? { BagSplit(DispatcherJobs(s.dispatchers), p.d); }
    if p.AtWorker? { BagSplit(WorkerJobs(s.workers), p.w); }
  }

  lemma TwoHolders(s: Service, p: Place, q: Place, j: JobId)
    requires HeldAt(s, p, j) && HeldAt(s, q, j) && p != q
    ensures Carried(s)[j] >= 2
  {
    ShareOfHolder(s, p, j);
    ShareOfHolder(s, q, j);
    CarriedAt(s, j);
    hide Carried, Bag, WorkerJobs, DispatcherJobs;
    if p.WithDispatcher? && q.WithDispatcher? {
      BagTwice(DispatcherJobs(s.dispatchers), if p.d < q.d then p.d else q.d, if p.d < q.d then q.d else p.d);
    }
    if p.AtWorker? && q.AtWorker? {
      BagTwice(WorkerJobs(s.workers), if p.w < q.w then p.w else q.w, if p.w < q.w then q.w else p.w);
    }
  }

  lemma SomeHolder(s: Service, j: JobId) returns (p: Place)
    requires Carried(s)[j] >= 1 && Rest(s.boot) == []
    ensures HeldAt(s, p, j)
  {
    CarriedAt(s, j);
    hide Carried, Bag;
    if j in s.scheduling {
      p := BlockedInSchedule;
    } else if j in s.sleeping {
      p := Asleep;
    } else if j in Bag(DispatcherJobs(s.dispatchers)) {
      var d := BagFinds(DispatcherJobs(s.dispatchers), j);
      p := WithDispatcher(d);
    } else {
      var w := BagFinds(WorkerJobs(s.workers), j);
      p := AtWorker(w);
    }
  }

  /** Once resumeJobs has returned, every pending, running or retrying job is in exactly one place,
      and every other id is nowhere; whatever happened before, crashes included. */
  lemma ExactlyOneCarrier(ss: seq<Service>, steps: seq<Step>, i: nat, j: JobId)
    requires Run(ss, steps) && Init(ss[0]) && i < |ss| && ss[i].boot == Serving
    ensures (exists p :: HeldAt(ss[i], p, j)) <==> j in ss[i].rows && Unfinished(ss[i].rows[j].status)
    ensures forall p, q | HeldAt(ss[i], p, j) && HeldAt(ss[i], q, j) :: p == q
    ensures ss[i].scheduling[j] <= 1 && ss[i].sleeping[j] <= 1
  {
    InvAlways(ss, steps, i);
    var s := ss[i];
    assert Carried(s)[j] == Due(s.rows, j) && Due(s.rows, j) <= 1;
    CarriedAt(s, j);
    hide Inv, Carried;
    forall p, q | HeldAt(s, p, j) && HeldAt(s, q, j) ensures p == q {
      if p != q { TwoHolders(s, p, q, j); }
    }
    if Due(s.rows, j) == 1 {
      var p := SomeHolder(s, j);
    } else {
      forall p | HeldAt(s, p, j) ensures false { ShareOfHolder(s, p, j); }
    }
  }

  /** The rows `after` keep the policy and operation of job `j`, and its whole row if it is over. */
  predicate RowKept(before: map<JobId, Row>, after: map<JobId, Row>, j: JobId)
    requires j in before
  {
    && j in after && after[j].policy == before[j].policy && after[j].operation == before[j].operation
    && (Terminal(before[j].status) ==> after[j] == before[j])
  }

  lemma StatusKeepsRow(rows: map<JobId, Row>, i: JobId, status: State, j: JobId)
    requires i in rows && Unfinished(rows[i].status) && j in rows
    ensures RowKept(rows, SetStatus(rows, i, status), j)
  {
  }

  lemma SameRowKept(rows: map<JobId, Row>, j: JobId)
    requires j in rows
    ensures RowKept(rows, rows, j)
  {
  }

  lemma RowAfterStatus(s: Service, step: Step, j: JobId)
    requires Inv(s) && Enabled(s, step) && j in s.rows && (step.Finish? || step.Enter?)
    ensures RowKept(s.rows, Apply(s, step).rows, j)
  {
    hide Inv, Enabled, Apply, RowKept, SetStatus, EnterState;
    OwnApply(s, step);
    var i := s.workers[step.w].stage.job;
    WorkerCarries(s, step.w);
    if step.Finish? {
      StatusKeepsRow(s.rows, i, if s.workers[step.w].stage.Canceling? then Canceled else Error, j);
    } else {
      SameRowKept(s.rows, j);
      StatusKeepsRow(s.rows, i, s.workers[step.w].stage.n, j);
      EnterWrites(s, step.w, step.o);
    }
  }

  lemma RowAfterReset(s: Service, j: JobId)
    requires Enabled(s, ResetRunning) && j in s.rows
    ensures RowKept(s.rows, Apply(s, ResetRunning).rows, j)
  {
    assert Apply(s, ResetRunning) == ApplyStart(s, ResetRunning);
    hide Enabled, Apply;
  }

  lemma RowAfterPost(s: Service, step: Step, j: JobId)
    requires step.Post? && Enabled(s, step) && j in s.rows
    ensures RowKept(s.rows, Apply(s, step).rows, j)
  {
  }

  lemma RowAfterStep(s: Service, step: Step, j: JobId)
    requires Inv(s) && Enabled(s, step) && j in s.rows
    ensures RowKept(s.rows, Apply(s, step).rows, j)
  {
    hide Inv, Enabled, Apply, RowKept;
    SameRowKept(s.rows, j);
    if step.Finish? || step.Enter? {
      RowAfterStatus(s, step, j);
    } else if step.ResetRunning? {
      RowAfterReset(s, j);
    } else if step.Post? {
      RowAfterPost(s, step, j);
    } else if ByStart(step) {
      StartFrame(s, step);
    } else if ByQueue(step) {
      QueueFrame(s, step);
    } else if ByWorker(step) {
      WorkerFrame(s, step);
    } else {
      StopFrame(s, step);
    }
  }

  /** A job that is finished, stopped, canceled or failed keeps that status for ever. */
  lemma {:induction false} TerminalIsForever(ss: seq<Service>, steps: seq<Step>, a: nat, b: nat, j: JobId)
    requires Run(ss, steps) && Init(ss[0]) && a <= b < |ss| && j in ss[a].rows
    ensures RowKept(ss[a].rows, ss[b].rows, j)
  {
    hide Run, Enabled, Apply, Inv;
    if a < b {
      TerminalIsForever(ss, steps, a, b - 1, j);
      InvAlways(ss, steps, b - 1);
      StepOf(ss, steps, b);
      RowAfterStep(ss[b - 1], steps[b - 1], j);
    }
  }

  lemma {:induction false} CountAtLeast(s: seq<nat>, i: nat, k: nat)
    requires i < k < |s| && s[i] == s[k]
    ensures multiset(s)[s[i]] >= 2
  {
    assert s == s[..k] + [s[k]] + s[k + 1..];
    assert s[..k][i] == s[k];
  }

  /** Each worker is in exactly one of four places. */
  datatype Spot = Starting | Queued | HeldBy(d: nat) | Busy

  ghost predicate InSpot(s: Service, w: nat, p: Spot) {
    match p
    case Starting => At(s, w) && s.workers[w].stage == Offering
    case Queued => w in s.free
    case HeldBy(d) => d < |s.dispatchers| && s.dispatchers[d].Handing? && s.dispatchers[d].worker == w
    case Busy => At(s, w) && JobAt(s.workers[w].stage).Item?
  }

  lemma PlacesBelow(s: Service, w: nat, p: Spot)
    requires InSpot(s, w, p) && (p.Queued? || p.HeldBy?)
    ensures PlacesOf(s, w) >= 1
  {
    if p.HeldBy? { BagSplit(DispatcherWorkers(s.dispatchers), p.d); }
  }

  lemma TwoSpots(s: Service, w: nat, p: Spot, q: Spot)
    requires At(s, w) && InSpot(s, w, p) && InSpot(s, w, q) && p != q
    requires (p.Queued? || p.HeldBy?) && (q.Queued? || q.HeldBy?)
    ensures PlacesOf(s, w) >= 2
  {
    if p.HeldBy? && q.HeldBy? {
      BagTwice(DispatcherWorkers(s.dispatchers), if p.d < q.d then p.d else q.d, if p.d < q.d then q.d else p.d);
    } else {
      BagSplit(DispatcherWorkers(s.dispatchers), if p.HeldBy? then p.d else q.d);
    }
  }

  lemma SomeSpot(s: Service, w: nat) returns (p: Spot)
    requires OnePlace(s) && At(s, w)
    ensures InSpot(s, w, p)
  {
    assert PlacesOf(s, w) == Listens(s, w);
    hide OnePlace, Bag;
    if s.workers[w].stage == Offering {
      p := Starting;
    } else if JobAt(s.workers[w].stage).Item? {
      p := Busy;
    } else if w in s.free {
      p := Queued;
    } else {
      var d := BagFinds(DispatcherWorkers(s.dispatchers), w);
      p := HeldBy(d);
    }
  }

  lemma OneSpot(s: Service, w: nat, p: Spot, q: Spot)
    requires OnePlace(s) && At(s, w) && InSpot(s, w, p) && InSpot(s, w, q)
    ensures p == q
  {
    assert PlacesOf(s, w) == Listens(s, w);
    hide OnePlace, PlacesOf;
    if p.Queued? || p.HeldBy? { PlacesBelow(s, w, p); }
    if q.Queued? || q.HeldBy? { PlacesBelow(s, w, q); }
    if p != q && (p.Queued? || p.HeldBy?) && (q.Queued? || q.HeldBy?) { TwoSpots(s, w, p, q); }
  }

  lemma QueuedOnce(s: Service, w: nat)
    requires OnePlace(s)
    ensures multiset(s.free)[w] <= 1
  {
    assert PlacesOf(s, w) <= 1;
    hide Bag;
  }

  lemma OthersDiffer(s: Service, w: nat, v: nat)
    requires Inv(s) && At(s, w) && At(s, v) && v != w && InSpot(s, w, Busy)
    ensures JobAt(s.workers[v].stage) != JobAt(s.workers[w].stage)
  {
    WorkerCarries(s, w);
    hide OnePlace, AllSound, Counted, RunningHeld, Known, JobAt;
    if v < w && JobAt(s.workers[v].stage).Item? { DifferentJobs(s, v, w); } else if w < v { DifferentJobs(s, w, v); }
  }

  /** Every worker is in exactly one spot, and once in the channel if it is there at all. Two
      workers never handle the same job. */
  lemma PoolIsExclusive(ss: seq<Service>, steps: seq<Step>, i: nat, w: nat)
    requires Run(ss, steps) && Init(ss[0]) && i < |ss| && At(ss[i], w)
    ensures exists p :: InSpot(ss[i], w, p)
    ensures forall p, q | InSpot(ss[i], w, p) && InSpot(ss[i], w, q) :: p == q
    ensures multiset(ss[i].free)[w] <= 1
    ensures forall v: nat | At(ss[i], v) && v != w && InSpot(ss[i], w, Busy) ::
              JobAt(ss[i].workers[v].stage) != JobAt(ss[i].workers[w].stage)
  {
    InvAlways(ss, steps, i);
    var s := ss[i];
    hide Run, Init, OnePlace, AllSound, Counted, RunningHeld, Known, Quiet, InSpot, JobAt;
    QueuedOnce(s, w);
    var spot := SomeSpot(s, w);
    forall p, q | InSpot(s, w, p) && InSpot(s, w, q) ensures p == q { OneSpot(s, w, p, q); }
    forall v: nat | At(s, v) && v != w && InSpot(s, w, Busy)
      ensures JobAt(s.workers[v].stage) != JobAt(s.workers[w].stage)
    {
      OthersDiffer(s, w, v);
    }
  }

  lemma BootStep(s: Service, step: Step)
    requires Enabled(s, step) && !step.BootUp? && !step.Crash?
    ensures var s' := Apply(s, step); (s'.boot == Down <==> s.boot == Down) && |s'.workers| == |s.workers|
  {
    hide Apply, Enabled;
    if ByStart(step) {
      BootStarts(s, step);
      StartFrame(s, step);
    } else if ByQueue(step) {
      QueueFrame(s, step);
      if step.Hand? || step.Offer? { QueueTouches(s, step, 0); }
    } else if ByWorker(step) {
      WorkerFrame(s, step);
    } else {
      StopFrame(s, step);
      if step.CallStop? { StopTouches(s, step, 0); }
    }
  }

  lemma BootStarts(s: Service, step: Step)
    requires Enabled(s, step) && ByStart(step) && !step.BootUp? && !step.Crash?
    ensures s.boot != Down && Apply(s, step).boot != Down
  {
    hide Enumerates;
  }

  lemma BootedUp(s: Service, step: Step)
    requires Enabled(s, step) && (step.BootUp? || step.Crash?) && Apply(s, step).boot != Down
    ensures step.BootUp? && |Apply(s, step).workers| == step.maxWorkers
  {
  }

  /** Once the service has started, the pool has as many workers as it was started with. */
  lemma {:induction false} PoolSize(ss: seq<Service>, steps: seq<Step>, i: nat) returns (b: nat)
    requires Run(ss, steps) && Init(ss[0]) && i < |ss| && ss[i].boot != Down
    ensures b < i && b < |steps| && steps[b].BootUp? && |ss[i].workers| == steps[b].maxWorkers
    ensures forall m | b < m < i :: !steps[m].BootUp? && !steps[m].Crash?
  {
    hide Run, Enabled, Apply;
    assert i > 0;
    StepOf(ss, steps, i);
    if steps[i - 1].BootUp? || steps[i - 1].Crash? {
      BootedUp(ss[i - 1], steps[i - 1]);
      b := i - 1;
    } else {
      BootStep(ss[i - 1], steps[i - 1]);
      b := PoolSize(ss, steps, i - 1);
    }
  }

  /** The jobs in the hands of the first `n` workers. */
  ghost function InWork(workers: seq<Worker>, n: nat): set<JobId>
    requires n <= |workers|
  {
    if n == 0 then {} else
    var h := JobAt(workers[n - 1].stage);
    InWork(workers, n - 1) + if h.Item? then {h.id} else {}
  }

  lemma {:induction false} InWorkHas(workers: seq<Worker>, n: nat, j: JobId)
    requires n <= |workers|
    ensures j in InWork(workers, n) <==> exists w: nat :: w < n && JobAt(workers[w].stage) == Item(j)
  {
    if n > 0 {
      InWorkHas(workers, n - 1, j);
      assert JobAt(workers[n - 1].stage).Item? ==> JobAt(workers[n - 1].stage) == Item(workers[n - 1].stage.job);
    }
  }

  lemma {:induction false} InWorkCounts(workers: seq<Worker>, n: nat)
    requires n <= |workers|
    ensures |InWork(workers, n)| <= n
  {
    hide JobAt;
    if n > 0 { InWorkCounts(workers, n - 1); }
  }

  /** Never more jobs are handled at once than the number of workers the service was started with: those
      handled are the set `jobs`. */
  lemma PoolIsBounded(ss: seq<Service>, steps: seq<Step>, i: nat) returns (b: nat, jobs: set<JobId>)
    requires Run(ss, steps) && Init(ss[0]) && i < |ss| && ss[i].boot != Down
    ensures b < i && b < |steps| && steps[b].BootUp?
    ensures forall m | b < m < i :: !steps[m].BootUp? && !steps[m].Crash?
    ensures forall j :: j in jobs <==> exists w: nat :: At(ss[i], w) && JobAt(ss[i].workers[w].stage) == Item(j)
    ensures |jobs| <= steps[b].maxWorkers == |ss[i].workers|
  {
    hide Run, Init, JobAt, InWork;
    b := PoolSize(ss, steps, i);
    var workers := ss[i].workers;
    jobs := InWork(workers, |workers|);
    InWorkCounts(workers, |workers|);
    forall j ensures j in jobs <==> exists w: nat :: At(ss[i], w) && JobAt(workers[w].stage) == Item(j) {
      InWorkHas(workers, |workers|, j);
    }
  }

  lemma FreeIsListening(s: Service)
    requires OnePlace(s)
    ensures forall i | 0 <= i < |s.free| :: At(s, s.free[i]) && s.workers[s.free[i]].stage == Listening
    ensures forall i, k | 0 <= i < k < |s.free| :: s.free[i] != s.free[k]
  {
    hide Bag, DispatcherWorkers;
    forall i | 0 <= i < |s.free| ensures At(s, s.free[i]) && s.workers[s.free[i]].stage == Listening {
      assert PlacesOf(s, s.free[i]) >= 1;
    }
    forall i, k | 0 <= i < k < |s.free| ensures s.free[i] != s.free[k] {
      assert PlacesOf(s, s.free[i]) <= 1;
      if s.free[i] == s.free[k] { CountAtLeast(s.free, i, k); }
    }
  }

  lemma HandNeverBlocks(s: Service, d: nat)
    requires OnePlace(s) && d < |s.dispatchers| && s.dispatchers[d].Handing?
    ensures Enabled(s, Hand(d))
  {
    var w := s.dispatchers[d].worker;
    PlacesBelow(s, w, HeldBy(d));
    assert PlacesOf(s, w) == Listens(s, w);
    hide Bag, OnePlace, PlacesOf;
  }

  lemma OfferNeverBlocks(s: Service, w: nat)
    requires OnePlace(s) && At(s, w) && s.workers[w].stage == Offering
    ensures Enabled(s, Offer(w))
  {
    FreeIsListening(s);
    hide OnePlace;
    Sets.Pigeonhole(s.free, |s.workers|, w);
  }

  /** The send on workerChan and the send to a worker never block. */
  lemma SendsNeverBlock(ss: seq<Service>, steps: seq<Step>, i: nat)
    requires Run(ss, steps) && Init(ss[0]) && i < |ss|
    ensures forall w: nat | At(ss[i], w) && ss[i].workers[w].stage == Offering :: Enabled(ss[i], Offer(w))
    ensures forall d: nat | d < |ss[i].dispatchers| && ss[i].dispatchers[d].Handing? :: Enabled(ss[i], Hand(d))
  {
    InvAlways(ss, steps, i);
    hide Run, Enabled, Apply, OnePlace;
    forall w: nat | At(ss[i], w) && ss[i].workers[w].stage == Offering { OfferNeverBlocks(ss[i], w); }
    forall d: nat | d < |ss[i].dispatchers| && ss[i].dispatchers[d].Handing? { HandNeverBlocks(ss[i], d); }
  }

  /** The step is a call of Stop on worker `w` for job `j`. */
  ghost predicate Stops(s: Service, step: Step, w: nat, j: JobId) {
    && step.CallStop? && step.k in s.stoppers && s.stoppers[step.k].Calling?
    && var c := s.stoppers[step.k]; c.w == w && c.i < |c.ids| && c.ids[c.i] == j
  }

  /** A worker as a step of somebody else leaves it: with the same job and stage, or in the next place
      towards a job, and asked to stop if Stop was called for its job; or it is new. */
  ghost predicate Touched(s: Service, step: Step, w: nat, x: Worker) {
    || (step.BootUp? && x == Worker(Offering, 0, NoState))
    || (&& At(s, w) && x.jobID == s.workers[w].jobID
        && (x.desired == s.workers[w].desired || (x.desired == Stopped && Stops(s, step, w, x.jobID)))
        && (|| x.stage == s.workers[w].stage
            || (s.workers[w].stage.Offering? && x.stage.Listening?)
            || (s.workers[w].stage.Listening? && x.stage.Taken?)))
  }

  lemma SameIsTouched(s: Service, step: Step, w: nat)
    requires At(s, w)
    ensures Touched(s, step, w, s.workers[w])
  {
  }

  lemma QueueTouches(s: Service, step: Step, w: nat)
    requires Enabled(s, step) && (step.Hand? || step.Offer?)
    ensures var s' := Apply(s, step); |s'.workers| == |s.workers| && (At(s', w) ==> Touched(s, step, w, s'.workers[w]))
  {
    assert QueueEnabled(s, step) && Apply(s, step) == ApplyQueue(s, step);
    hide Enabled, Apply;
  }

  lemma StopTouches(s: Service, step: Step, w: nat)
    requires Enabled(s, step) && step.CallStop?
    ensures var s' := Apply(s, step); |s'.workers| == |s.workers| && (At(s', w) ==> Touched(s, step, w, s'.workers[w]))
  {
    StopApply(s, step);
    hide Enabled, Apply;
  }

  lemma StartTouches(s: Service, step: Step, w: nat)
    requires Enabled(s, step) && (step.BootUp? || step.Crash?) && At(Apply(s, step), w)
    ensures step.BootUp? && Touched(s, step, w, Apply(s, step).workers[w])
  {
  }

  lemma OthersTouch(s: Service, step: Step, w: nat)
    requires Enabled(s, step) && !(ByWorker(step) && step.w == w)
    ensures var s' := Apply(s, step);
      && (!step.BootUp? && !step.Crash? ==> |s'.workers| == |s.workers|)
      && (At(s', w) ==> !step.Crash? && Touched(s, step, w, s'.workers[w]))
  {
    hide Enabled, Apply, Touched;
    if At(s, w) { SameIsTouched(s, step, w); }
    if step.Hand? || step.Offer? {
      QueueTouches(s, step, w);
    } else if step.CallStop? {
      StopTouches(s, step, w);
    } else if step.BootUp? || step.Crash? {
      if At(Apply(s, step), w) { StartTouches(s, step, w); }
    } else if ByStart(step) {
      StartFrame(s, step);
    } else if ByQueue(step) {
      QueueFrame(s, step);
    } else if ByWorker(step) {
      WorkerFrame(s, step);
    } else {
      StopFrame(s, step);
    }
  }

  lemma OwnDesired(s: Service, step: Step)
    requires Enabled(s, step) && ByWorker(step) && At(Apply(s, step), step.w)
    requires Apply(s, step).workers[step.w].desired != NoState
    ensures !step.Take? && At(s, step.w)
    ensures s.workers[step.w].desired != NoState && s.workers[step.w].jobID == Apply(s, step).workers[step.w].jobID
  {
    hide Enabled, Apply, EnterState, AfterLook, AfterRead, SetStatus, Answers;
    OwnApply(s, step);
    if step.Enter? { EnterTouches(s, step.w, step.o); }
  }

  /** What has been asked of worker `w` is still asked, or has just been. */
  lemma StopAfterStep(s: Service, step: Step, w: nat)
    requires Enabled(s, step) && At(Apply(s, step), w) && Apply(s, step).workers[w].desired != NoState
    ensures step != Take(w) && step != Crash
    ensures Stops(s, step, w, Apply(s, step).workers[w].jobID)
      || (At(s, w) && s.workers[w].desired != NoState && s.workers[w].jobID == Apply(s, step).workers[w].jobID)
  {
    hide Enabled, Apply, Stops;
    if ByWorker(step) && step.w == w { OwnDesired(s, step); } else { OthersTouch(s, step, w); }
  }

  /** A machine is asked to stop only by a call of Stop that named the job the machine has now,
      made after the Reset for that job. A late stop never hits the next job. */
  lemma {:induction false} StopIsIsolated(ss: seq<Service>, steps: seq<Step>, i: nat, w: nat) returns (k: nat)
    requires Run(ss, steps) && Init(ss[0]) && i < |ss|
    requires At(ss[i], w) && ss[i].workers[w].desired != NoState
    ensures k < i && Stops(ss[k], steps[k], w, ss[i].workers[w].jobID)
    ensures forall m | k < m < i :: steps[m] != Take(w) && steps[m] != Crash
  {
    hide Run, Inv, Enabled, Apply, Stops;
    assert i > 0;
    StepOf(ss, steps, i);
    StopAfterStep(ss[i - 1], steps[i - 1], w);
    if Stops(ss[i - 1], steps[i - 1], w, ss[i].workers[w].jobID) {
      k := i - 1;
    } else {
      k := StopIsIsolated(ss, steps, i - 1, w);
    }
  }

  lemma OneWayOn(rows: map<JobId, Row>, worker: Worker)
    requires Sound(rows, worker) && worker.stage.Looping? && worker.stage.n == Continue
    ensures var j := worker.stage.job;
      j in rows && |Targets(TableOf(rows[j].operation), worker.stage.cur)| == 1
  {
    hide Legal, Targets, Unfinished, TRANSFER_TABLE, DELETE_TABLE;
    OneTargetOfRunning();
  }

  /** The error branches of EnterState and Start for a missing transition, a missing row or an
      ambiguous `_continue` are never taken. */
  lemma MovesAreLegal(ss: seq<Service>, steps: seq<Step>, i: nat, w: nat)
    requires Run(ss, steps) && Init(ss[0]) && i < |ss| && At(ss[i], w)
    ensures ss[i].workers[w].stage.Entering? ==>
              var Entering(j, cur, n) := ss[i].workers[w].stage;
              j in ss[i].rows && Legal(TableOf(ss[i].rows[j].operation), cur, n) && n !in {NoState, Continue, Canceled}
    ensures ss[i].workers[w].stage.Looping? && ss[i].workers[w].stage.n == Continue ==>
              var j := ss[i].workers[w].stage.job;
              j in ss[i].rows && |Targets(TableOf(ss[i].rows[j].operation), ss[i].workers[w].stage.cur)| == 1
  {
    hide Run, Init, Inv, Enabled, Apply, Legal, TableOf, Targets;
    InvAlways(ss, steps, i);
    SoundAt(ss[i], w);
    if ss[i].workers[w].stage.Looping? && ss[i].workers[w].stage.n == Continue {
      OneWayOn(ss[i].rows, ss[i].workers[w]);
    }
  }
}
