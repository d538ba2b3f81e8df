/** The service goes on: a start comes to its end, and so does a stop action, unless a crash cuts them short;
    and whatever can come from outside can come at any time. */
module Openness {
  import opened States
  import opened JobService
  import opened Carriers
  import opened Guarantees
  import Sets

  /** A crash and a change of a policy can come in any state; a job or a request to stop whenever the
      service serves; a sleeping job can wake; and none of the replies of a registry or a database is ruled out. */
  lemma AnythingCanCome(s: Service, j: JobId, p: PolicyId, op: Operation, on: bool, k: nat)
    ensures Enabled(s, Crash) && Enabled(s, SetEnabled(p, on))
    ensures s.boot == Serving && k !in s.stoppers ==> Enabled(s, Ask(k, p))
    ensures s.boot == Serving && j !in s.rows && p in s.enabled ==> Enabled(s, Post(j, p, op))
    ensures j in s.sleeping ==> Enabled(s, Wake(j))
    ensures forall w: nat, loadable | At(s, w) && s.workers[w].stage.Reading? :: Enabled(s, Read(w, loadable))
    ensures forall w: nat, n | At(s, w) && s.workers[w].stage.Entering? && n in Answers(s.workers[w].stage.n) ::
      Enabled(s, Enter(w, Go(n)))
    ensures forall w: nat, e | At(s, w) && s.workers[w].stage.Entering? && s.workers[w].stage.n in
        {Initialize, Check, PullManifest, TransferBlob, PushManifest, State.Delete} :: Enabled(s, Enter(w, Fail(e)))
  {
  }

  lemma {:induction false} SomeOrder(found: set<JobId>) returns (ids: seq<JobId>)
    ensures (forall j :: j in ids <==> j in found) && forall a, b | 0 <= a < b < |ids| :: ids[a] != ids[b]
  {
    ids := [];
    if j :| j in found {
      var rest := SomeOrder(found - {j});
      ids := rest + [j];
      forall a, b | 0 <= a < b < |ids| ensures ids[a] != ids[b] { assert rest != [] ==> rest[a] in rest; }
    }
  }

  /** The ids a query finds, in some order. */
  lemma SomeListing(rows: map<JobId, Row>, q: Row -> bool) returns (ids: seq<JobId>)
    ensures Enumerates(ids, rows, q)
  {
    ids := SomeOrder(set j | j in rows && q(rows[j]));
  }

  /** What is left to do of a start. */
  function StartLeft(s: Service): nat {
    match s.boot
    case Down => 4 + |s.rows|
    case Resetting => 3 + |s.rows|
    case Listing => 2 + |s.rows|
    case Resuming(rest) => 1 + |rest|
    case Serving => 0
  }

  lemma ListingIsShort(ids: seq<JobId>, rows: map<JobId, Row>, q: Row -> bool)
    requires Enumerates(ids, rows, q)
    ensures |ids| <= |rows|
  {
    Sets.Elements(ids);
    Sets.Smaller(set i | 0 <= i < |ids| :: ids[i], rows.Keys);
  }

  /** As long as the service does not serve, start-up has a next step; and every step it makes that is no crash
      leaves it less to do. */
  lemma StartGoesOn(s: Service) returns (step: Step)
    requires s.boot != Serving
    ensures ByStart(step) && !step.Crash? && Enabled(s, step)
  {
    match s.boot
    case Down => step := BootUp(0);
    case Resetting => step := ResetRunning;
    case Listing =>
      var ids := SomeListing(s.rows, Resumable());
      step := ListJobs(ids);
    case Resuming(rest) => step := if rest == [] then ResumeDone else ResumeNext;
  }

  lemma StartIsNearer(s: Service, step: Step)
    requires Enabled(s, step) && ByStart(step) && !step.Crash?
    ensures StartLeft(Apply(s, step)) < StartLeft(s)
  {
    StartApply(s, step);
    hide Enabled, Apply;
    if step.ListJobs? {
      ListingIsShort(step.ids, s.rows, Resumable());
    } else if step.ResetRunning? {
      hide Enumerates;
      assert Apply(s, step).rows.Keys == s.rows.Keys;
      assert |Apply(s, step).rows| == |s.rows|;
    } else {
      hide Enumerates;
    }
  }

  lemma StartApply(s: Service, step: Step)
    requires Enabled(s, step) && ByStart(step)
    ensures StartEnabled(s, step) && Apply(s, step) == ApplyStart(s, step)
  {
    hide ApplyStart, StartEnabled;
  }

  /** A stop action is at one of the workers or past the last one, and there is none before the service serves. */
  ghost predicate StoppersFit(s: Service) {
    && (s.boot != Serving ==> s.stoppers == map[])
    && (forall k | k in s.stoppers && s.stoppers[k].Scanning? :: s.stoppers[k].w <= |s.workers|)
    && (forall k | k in s.stoppers && s.stoppers[k].Calling? ::
          s.stoppers[k].w < |s.workers| && s.stoppers[k].i < |s.stoppers[k].ids|)
  }

  lemma FitsStep(s: Service, step: Step)
    requires Enabled(s, step) && StoppersFit(s)
    ensures StoppersFit(Apply(s, step))
  {
    hide Enabled, Apply;
    if ByStart(step) {
      StartApply(s, step);
      hide Enumerates;
    } else if ByQueue(step) {
      QueueFrame(s, step);
      OthersTouch(s, step, 0);
    } else if ByWorker(step) {
      WorkerFrame(s, step);
      OwnWorkers(s, step);
    } else {
      StopApply(s, step);
      hide Enumerates;
    }
  }

  lemma OwnWorkers(s: Service, step: Step)
    requires Enabled(s, step) && ByWorker(step)
    ensures |Apply(s, step).workers| == |s.workers|
  {
    OwnApply(s, step);
    hide Enabled, Apply, Legal, TableOf, AfterLook, AfterRead, Answers, SetStatus;
  }

  lemma {:induction false} FitsAlways(ss: seq<Service>, steps: seq<Step>, i: nat)
    requires Run(ss, steps) && Init(ss[0]) && i < |ss|
    ensures StoppersFit(ss[i])
  {
    hide Run, Enabled, Apply, StoppersFit;
    if i == 0 {
      NoneAtFirst(ss[0]);
    } else {
      FitsAlways(ss, steps, i - 1);
      StepOf(ss, steps, i);
      FitsStep(ss[i - 1], steps[i - 1]);
    }
  }

  lemma NoneAtFirst(s: Service)
    requires Init(s)
    ensures StoppersFit(s)
  {
  }

  /** The stop action has called every worker that has one of its jobs. */
  predicate Through(c: Stopper) {
    c.Scanning? && c.i >= |c.ids|
  }

  /** The step is one of stop action `k`. */
  predicate OfAction(step: Step, k: nat) {
    (step.Query? || step.Inspect? || step.CallStop?) && step.k == k
  }

  /** A stop action that is not through can go on. */
  lemma StopGoesOn(ss: seq<Service>, steps: seq<Step>, i: nat, k: nat) returns (step: Step)
    requires Run(ss, steps) && Init(ss[0]) && i < |ss| && k in ss[i].stoppers && !Through(ss[i].stoppers[k])
    ensures OfAction(step, k) && Enabled(ss[i], step)
  {
    hide Run, Init;
    FitsAlways(ss, steps, i);
    match ss[i].stoppers[k]
    case Asking(p) =>
      var ids := SomeListing(ss[i].rows, ToStop(p));
      step := Query(k, ids);
    case Scanning(_, _, _, _) => step := Inspect(k);
    case Calling(_, _, _, _) => step := CallStop(k);
  }

  /** How far a stop action is from its end: the jobs left, the workers left for the job it looks for, and
      whether there is a call to make. */
  function StopLeft(s: Service, k: nat): (int, int, int)
    requires k in s.stoppers
  {
    match s.stoppers[k]
    case Asking(_) => (|s.rows| + 1, 0, 0)
    case Scanning(_, ids, i, w) => (|ids| - i, |s.workers| + 1 - w, 1)
    case Calling(_, ids, i, w) => (|ids| - i, |s.workers| + 1 - w, 0)
  }

  lemma QueryIsNearer(s: Service, k: nat, ids: seq<JobId>)
    requires Enabled(s, Query(k, ids))
    ensures k in s.stoppers && s.stoppers[k].Asking? && |ids| <= |s.rows|
    ensures Apply(s, Query(k, ids)) == s.(stoppers := s.stoppers[k := Scanning(s.stoppers[k].policy, ids, 0, 0)])
  {
    StopApply(s, Query(k, ids));
    hide Enabled, Apply;
    ListingIsShort(ids, s.rows, ToStop(s.stoppers[k].policy));
    hide Enumerates;
  }

  lemma OwnStepIsNearer(s: Service, step: Step, k: nat)
    requires Enabled(s, step) && StoppersFit(s) && k in s.stoppers && OfAction(step, k)
    ensures k in Apply(s, step).stoppers
    ensures var a, b := StopLeft(s, k), StopLeft(Apply(s, step), k);
      (a.0, a.1, a.2 decreases to b.0, b.1, b.2)
  {
    hide Enabled, Apply, Enumerates;
    if step.Query? {
      QueryIsNearer(s, k, step.ids);
    } else {
      StopApply(s, step);
    }
  }

  lemma OthersKeepStopper(s: Service, step: Step, k: nat)
    requires Enabled(s, step) && StoppersFit(s) && k in s.stoppers && !OfAction(step, k) && !step.Crash?
    ensures k in Apply(s, step).stoppers && Apply(s, step).stoppers[k] == s.stoppers[k]
    ensures |Apply(s, step).workers| == |s.workers|
  {
    hide Enabled, Apply;
    if ByStart(step) {
      StartApply(s, step);
      hide Enumerates;
    } else if ByQueue(step) {
      QueueFrame(s, step);
      OthersTouch(s, step, 0);
    } else if ByWorker(step) {
      WorkerFrame(s, step);
      OwnWorkers(s, step);
    } else {
      StopApply(s, step);
      hide Enumerates, Inspected;
    }
  }

  /** Each of its own steps brings it nearer, and no step of anybody else but a crash keeps it back; new jobs
      count only before its query. */
  lemma StopIsNearer(ss: seq<Service>, steps: seq<Step>, i: nat, k: nat)
    requires Run(ss, steps) && Init(ss[0]) && i + 1 < |ss| && k in ss[i].stoppers && !steps[i].Crash?
    ensures k in ss[i + 1].stoppers
    ensures var a, b := StopLeft(ss[i], k), StopLeft(ss[i + 1], k);
      if OfAction(steps[i], k) then (a.0, a.1, a.2 decreases to b.0, b.1, b.2)
      else ss[i + 1].stoppers[k] == ss[i].stoppers[k] && (a == b || ss[i].stoppers[k].Asking?)
  {
    hide Run, Init, Enabled, Apply, StoppersFit;
    StepOf(ss, steps, i + 1);
    FitsAlways(ss, steps, i);
    if OfAction(steps[i], k) {
      OwnStepIsNearer(ss[i], steps[i], k);
    } else {
      OthersKeepStopper(ss[i], steps[i], k);
    }
  }
}
