/** The job state machine of a worker, run on real handlers. Stop requests of other
    goroutines land wherever the lock is free. */
module StateMachine {
  import opened States
  import opened Registry
  import opened TransferHandlers

  datatype Job = Job(status: State, policyID: int, operation: Operation, tags: seq<Tag>)
  datatype Policy = Policy(targetID: int, enabled: int)
  datatype Parms = Parms(tags: seq<Tag>, enabled: int, operation: Operation)

  datatype Handler =
    | StatusUpdater(jobID: int, state: State)
    | Retry(jobID: int)
    | Initializer(base: BaseHandler)
    | Checker(base: BaseHandler)
    | ManifestPuller(base: BaseHandler)
    | BlobTransfer(base: BaseHandler)
    | ManifestPusher(base: BaseHandler)
    | DeleteHandler(deleter: Deleter)

  class Database {
    var jobs: map<int, Job>
    var policies: map<int, Policy>
    var targets: map<int, Destination>
    /** The targets whose stored password cannot be decrypted. */
    var garbled: set<int>

    constructor ()
      ensures jobs == map[] && policies == map[] && targets == map[] && garbled == {}
    {
      jobs, policies, targets, garbled := map[], map[], map[], {};
    }

    /** The rows a job needs before it can be started or canceled. */
    predicate Loadable(j: Job)
      reads this
    {
      && j.policyID in policies
      && var p := policies[j.policyID];
         p.enabled == 0 || (p.targetID in targets && p.targetID !in garbled && !j.operation.Unsupported?)
    }

    function ParmsOf(j: Job): Parms
      requires j.policyID in policies
      reads this
    {
      Parms(j.tags, policies[j.policyID].enabled, j.operation)
    }

    function TargetOf(j: Job): Destination
      requires Loadable(j) && policies[j.policyID].enabled != 0
      reads this
    {
      targets[policies[j.policyID].targetID]
    }

    method UpdateRepJobStatus(id: int, status: State)
      requires id in jobs
      modifies this`jobs
      ensures jobs == old(jobs)[id := old(jobs)[id].(status := status)]
    {
      jobs := jobs[id := jobs[id].(status := status)];
    }
  }

  function CommonHandlers(id: int): map<State, Handler> {
    map[][Running := StatusUpdater(id, Running)][Error := StatusUpdater(id, Error)]
      [Stopped := StatusUpdater(id, Stopped)][Retrying := Retry(id)]
  }

  function TransferHandlersOf(id: int, b: BaseHandler): map<State, Handler> {
    CommonHandlers(id)[Initialize := Initializer(b)][Check := Checker(b)]
      [State.PullManifest := ManifestPuller(b)][State.TransferBlob := BlobTransfer(b)]
      [Finished := StatusUpdater(id, Finished)][State.PushManifest := ManifestPusher(b)]
      [State.PullManifest := ManifestPuller(b)]
  }

  function DeleteHandlersOf(id: int, d: Deleter): map<State, Handler> {
    CommonHandlers(id)[State.Delete := DeleteHandler(d)][Finished := StatusUpdater(id, Finished)]
  }

  lemma TransferHandlerOf(id: int, b: BaseHandler, s: State)
    requires s in TransferHandlersOf(id, b)
    ensures s in {Running, Error, Stopped, Finished, Retrying, Initialize, Check}
      || s in {State.PullManifest, State.TransferBlob, State.PushManifest}
    ensures TransferHandlersOf(id, b)[s] ==
      match s
      case Retrying => Retry(id)
      case Initialize => Initializer(b)
      case Check => Checker(b)
      case PullManifest => ManifestPuller(b)
      case TransferBlob => BlobTransfer(b)
      case PushManifest => ManifestPusher(b)
      case _ => StatusUpdater(id, s)
  {
  }

  lemma DeleteHandlerOf(id: int, d: Deleter, s: State)
    requires s in DeleteHandlersOf(id, d)
    ensures s in {Running, Error, Stopped, Finished, Retrying, State.Delete}
    ensures DeleteHandlersOf(id, d)[s] ==
      match s
      case Retrying => Retry(id)
      case Delete => DeleteHandler(d)
      case _ => StatusUpdater(id, s)
  {
  }

  /** How many transitions a run can still make from the next state `n` with `t` tags to do. */
  function Rank(n: State, t: nat): nat {
    match n
    case NoState => 0
    case Check => 3 * t + 3
    case PullManifest => 3 * t + 2
    case TransferBlob => 3 * t + 1
    case PushManifest => 3 * t
    case Initialize => 2
    case Delete => 2
    case Continue => 2
    case Running => 3
    case _ => 1
  }

  /** Of the table `rows` only the status of job `id` has changed. */
  predicate OnlyStatus(rows: map<int, Job>, jobs: map<int, Job>, id: int) {
    id in rows && id in jobs && jobs == rows[id := rows[id].(status := jobs[id].status)]
  }

  lemma UpdateKeepsOnlyStatus(rows: map<int, Job>, jobs: map<int, Job>, id: int, status: State)
    requires OnlyStatus(rows, jobs, id)
    ensures OnlyStatus(rows, jobs[id := jobs[id].(status := status)], id)
  {
  }

  /** What came after the first `n`. */
  function From(s: seq<Err>, n: nat): seq<Err> {
    if n <= |s| then s[n..] else []
  }

  /** How a run ends that nobody stops: a network failure is retried, any other is an error. */
  function Fate(faults: seq<Err>): State {
    if faults == [] then Finished else if faults == [NetworkErr] then Retrying else Error
  }

  class SM {
    const db: Database
    const local: Source

    var jobID: int
    var currentState: State
    var previousState: State
    var transitions: Table
    var handlers: map<State, Handler>
    var desiredState: State
    var parms: Option<Parms>
    /** Jobs handed to a sleeping rescheduler, oldest first. */
    var rescheduled: seq<int>

    ghost var base: BaseHandler?
    ghost var deleter: Deleter?
    ghost var destination: Destination?
    /** Content of the destination when the current run began, and all it had had until then. */
    ghost var start: Content
    ghost var past: seq<Content>
    /** The failures of calls to the two registries until then. */
    ghost var pastLocal: seq<Err>
    ghost var pastRemote: seq<Err>
    /** Whether it had been closed at all times until then. */
    ghost var closed: bool
    /** The content of the source and the job table then. */
    ghost var origin: Content
    ghost var rows: map<int, Job>
    /** Whether a Stop named this job since the last Reset. */
    ghost var hit: bool

    constructor (db: Database, local: Source)
      ensures this.db == db && this.local == local
      ensures desiredState == NoState && !hit
    {
      this.db, this.local := db, local;
      jobID, currentState, previousState, desiredState := 0, NoState, NoState, NoState;
      transitions, handlers, parms, rescheduled := {}, map[], None, [];
      base, deleter, destination := null, null, null;
      hit := false;
    }

    /** Stop requests hit only the job they name. */
    method Stop(id: int)
      modifies this`desiredState, this`hit
      ensures desiredState == (if id == jobID then Stopped else old(desiredState))
      ensures hit == (old(hit) || id == jobID)
    {
      if id == jobID {
        desiredState := Stopped;
        hit := true;
      }
    }

    function Waiting(): nat
      reads `desiredState
    {
      if desiredState == NoState then 0 else 1
    }

    /** At most `left` Stop calls, for whatever jobs, by other goroutines. */
    method OthersStop(left: nat) returns (rest: nat)
      modifies this`desiredState, this`hit
      ensures desiredState == old(desiredState) || desiredState == Stopped
      ensures old(hit) ==> hit
      ensures hit && !old(hit) ==> desiredState == Stopped
      ensures old(desiredState != NoState ==> hit) ==> (desiredState != NoState ==> hit)
      ensures rest + Waiting() <= left + old(Waiting())
    {
      rest := left;
      while rest > 0
        invariant desiredState == old(desiredState) || desiredState == Stopped
        invariant old(hit) ==> hit
        invariant hit && !old(hit) ==> desiredState == Stopped
        invariant old(desiredState != NoState ==> hit) ==> (desiredState != NoState ==> hit)
        invariant rest + Waiting() <= left + old(Waiting())
      {
        var more: bool := *;
        if !more { return; }
        var id: int := *;
        Stop(id);
        rest := rest - 1;
      }
    }

    method AddTransition(from: State, to: State, h: Handler)
      modifies this`transitions, this`handlers
      ensures transitions == old(transitions) + {(from, to)}
      ensures handlers == old(handlers)[to := h]
    {
      transitions := transitions + {(from, to)};
      handlers := handlers[to := h];
    }

    /** The tables belong to the current job and to nothing else. */
    ghost predicate Tables(op: Operation)
      reads `transitions, `handlers, `base, `deleter, `destination, `jobID
    {
      && transitions == TableOf(op)
      && (op == Transfer ==>
            && base != null && base.source == local && base.destination == destination
            && handlers == TransferHandlersOf(jobID, base))
      && (op == Operation.Delete ==>
            && base == null && deleter != null && deleter.destination == destination
            && handlers == DeleteHandlersOf(jobID, deleter))
    }

    /** A fresh machine for a job with this operation and these tags. */
    ghost predicate ReadyFor(op: Operation, tags: seq<Tag>)
      reads `currentState, `transitions, `handlers, `base, `deleter, `destination, `jobID, base
    {
      && currentState == Pending
      && Tables(op)
      && (op == Transfer ==> base.Fresh() && base.tags == tags)
      && (op == Operation.Delete ==> deleter.tags == tags)
    }

    /** Takes over job `id`; a stop request seen from here on is one for this job. */
    method Take(id: int)
      modifies this`jobID, this`desiredState, this`hit
      ensures jobID == id && desiredState == NoState && !hit
    {
      jobID, desiredState := id, NoState;
      hit := false;
    }

    /** Reads the rows of the job and fills the tables; `Missing` is the error of an absent row and
        `OtherErr` that of a password or an operation. A disabled policy leaves the old tables. */
    method Load() returns (failure: Option<Err>)
      requires jobID in db.jobs
      modifies this`parms, this`destination, this`handlers, this`transitions, this`currentState, this`base, this`deleter
      ensures failure.None? <==> db.Loadable(db.jobs[jobID])
      ensures failure.None? ==> parms == Some(db.ParmsOf(db.jobs[jobID]))
      ensures failure.None? && parms.value.enabled == 0 ==> unchanged(`transitions, `handlers)
      ensures failure.None? && parms.value.enabled != 0 ==>
        ReadyFor(parms.value.operation, parms.value.tags) && destination == db.TargetOf(db.jobs[jobID])
      ensures failure.None? && parms.value.enabled != 0 && parms.value.operation == Transfer ==> fresh(base)
    {
      var j := db.jobs[jobID];
      if j.policyID !in db.policies { return Some(Missing); }
      var p := db.policies[j.policyID];
      parms := Some(db.ParmsOf(j));
      if p.enabled == 0 { return None; }
      if p.targetID !in db.targets { return Some(Missing); }
      var d := db.targets[p.targetID];
      destination := d;
      if p.targetID in db.garbled { return Some(OtherErr); }
      failure := InitHandlers(j.operation, d, j.tags);
    }

    method InitHandlers(op: Operation, d: Destination, tags: seq<Tag>) returns (failure: Option<Err>)
      requires destination == d
      modifies this`handlers, this`transitions, this`currentState, this`base, this`deleter
      ensures failure == if op.Unsupported? then Some(OtherErr) else None
      ensures currentState == Pending && Tables(op)
      ensures op == Transfer ==> fresh(base) && base.Fresh() && base.tags == tags
      ensures op == Operation.Delete ==> deleter.tags == tags
    {
      base, deleter := null, null;
      AddCommonTransitions();
      failure := None;
      match op {
        case Transfer => AddTransferTransitions(d, tags);
        case Delete => AddDeleteTransitions(d, tags);
        case Unsupported(_) => failure := Some(OtherErr);
      }
    }

    method AddCommonTransitions()
      modifies this`handlers, this`transitions, this`currentState
      ensures transitions == COMMON_TABLE && handlers == CommonHandlers(jobID) && currentState == Pending
    {
      handlers, transitions, currentState := map[], {}, Pending;
      AddTransition(Pending, Running, StatusUpdater(jobID, Running));
      AddTransition(Retrying, Running, StatusUpdater(jobID, Running));
      handlers := handlers[Error := StatusUpdater(jobID, Error)];
      handlers := handlers[Stopped := StatusUpdater(jobID, Stopped)];
      handlers := handlers[Retrying := Retry(jobID)];
    }

    method AddTransferTransitions(d: Destination, tags: seq<Tag>)
      requires transitions == COMMON_TABLE && handlers == CommonHandlers(jobID) && destination == d
      modifies this`handlers, this`transitions, this`base
      ensures Tables(Transfer) && fresh(base) && base.Fresh() && base.tags == tags
    {
      var b := new BaseHandler(local, d, tags);
      base := b;
      AddTransition(Running, Initialize, Initializer(b));
      AddTransition(Initialize, Check, Checker(b));
      AddTransition(Check, State.PullManifest, ManifestPuller(b));
      AddTransition(State.PullManifest, State.TransferBlob, BlobTransfer(b));
      AddTransition(State.PullManifest, Finished, StatusUpdater(jobID, Finished));
      AddTransition(State.TransferBlob, State.PushManifest, ManifestPusher(b));
      AddTransition(State.PushManifest, State.PullManifest, ManifestPuller(b));
    }

    method AddDeleteTransitions(d: Destination, tags: seq<Tag>)
      requires transitions == COMMON_TABLE && handlers == CommonHandlers(jobID)
      requires destination == d && base == null
      modifies this`handlers, this`transitions, this`deleter
      ensures Tables(Operation.Delete) && deleter.tags == tags
    {
      var x := new Deleter(tags, d);
      deleter := x;
      AddTransition(Running, State.Delete, DeleteHandler(x));
      AddTransition(State.Delete, Finished, StatusUpdater(jobID, Finished));
    }

    ghost predicate Transferring()
      reads `parms
    {
      parms.Some? && parms.value.operation == Transfer
    }

    /** The destination is as it was when the run began. */
    ghost predicate Untouched()
      reads `destination, `start, `past, destination
    {
      destination != null && (destination.quiet ==> destination.content == start && destination.history == past)
    }

    /** The list fixed by Initialize is the job's own, or else the source's. */
    ghost predicate ListRight()
      requires parms.Some? && base != null
      reads `parms, `base, local, base
    {
      if parms.value.tags != [] then base.fixed == parms.value.tags
      else local.quiet ==> forall t :: t in base.fixed <==> t in local.content.tags
    }

    /** The failures of the run so far. */
    ghost function Faults(): seq<Err>
      reads `pastLocal, `pastRemote, `base, `destination, local, base, destination
    {
      From(local.faults, |pastLocal|)
      + (if destination != null then From(destination.faults, |pastRemote|) else [])
      + (if base != null then base.faults else [])
    }

    /** The next state `n` is what these failures lead to; a stop may come after a network failure. */
    ghost predicate FaultsLeadTo(n: State)
      reads `pastLocal, `pastRemote, `base, `destination, local, base, destination
    {
      match n
      case Retrying => Faults() == [NetworkErr]
      case Error => Faults() == [OtherErr]
      case Stopped => Faults() == [] || Faults() == [NetworkErr]
      case _ => Faults() == []
    }

    /** What holds between any two steps of a run. */
    ghost predicate Standing()
      reads `parms, `transitions, `handlers, `base, `deleter, `destination, `jobID
      reads `start, `past, `pastLocal, `pastRemote, `closed, `rows, `origin
      reads db, local, base, destination, deleter
    {
      && parms.Some? && jobID in db.jobs && destination != null
      && OnlyStatus(rows, db.jobs, jobID)
      && pastLocal <= local.faults && pastRemote <= destination.faults
      && destination.Valid() && past <= destination.history && (closed ==> destination.AlwaysClosed())
      && (local.quiet ==> local.content == origin)
      && parms.value.operation in {Transfer, Operation.Delete} && Tables(parms.value.operation)
      && (Transferring() ==>
            && base.CacheRight()
            && if base.connected then base.Progress(start, |past|) && ListRight()
               else base.fixed == [] && base.tags == parms.value.tags && Untouched())
      && (!Transferring() ==> deleter.tags == parms.value.tags)
      && (!Transferring() && destination.quiet ==> DeletedPartly(start, destination.content, deleter.tags))
    }

    ghost predicate Unstarted()
      reads `parms, `base, `destination, `start, `past, base, destination
    {
      if Transferring() then base != null && base.Fresh() else Untouched()
    }

    /** The work of the job is complete. */
    ghost predicate Done()
      reads `parms, `base, `destination, `deleter, `start, base, destination, deleter
    {
      if Transferring() then base != null && base.connected && base.tags == []
      else
        && deleter != null && destination != null
        && (destination.quiet ==> destination.content == Deleted(start, deleter.tags))
    }

    /** What holds when the machine is in `cur` and the next state is `n`. */
    ghost predicate Phase(cur: State, n: State)
      reads `parms, `base, `destination, `deleter, `start, `past, `pastLocal, `pastRemote, `jobID
      reads db, base, local, destination, deleter
    {
      FaultsLeadTo(if n == NoState then cur else n) &&
      match n
      case Running => cur == Pending && Unstarted()
      case Continue => cur == Running && Unstarted()
      case Initialize => Transferring() && cur == Running && Unstarted()
      case Delete => !Transferring() && cur == Running && Unstarted()
      case Check => Transferring() && cur == Initialize && base != null && base.connected && base.Idle()
      case PullManifest =>
        Transferring() && cur in {Check, State.PushManifest} && base != null && base.connected && base.Idle()
      case TransferBlob =>
        Transferring() && cur == State.PullManifest && Owned() && base.Loaded() && base.FromSource()
      case PushManifest =>
        Transferring() && cur == State.TransferBlob && Owned() && base.Shipped() && base.FromSource()
      case Finished => cur == (if Transferring() then State.PullManifest else State.Delete) && Done()
      case Stopped => Working(cur)
      case Retrying => Working(cur)
      case Error => Working(cur)
      case NoState =>
        && cur in {Finished, Stopped, Retrying, Error} && jobID in db.jobs && db.jobs[jobID].status == cur
        && (cur == Finished ==> Done())
      case _ => false
    }

    ghost function TagsLeft(): nat
      reads `parms, `base, base
    {
      if Transferring() && base != null then |base.tags| else 0
    }

    /** The most transitions a run may take: three for each tag, and five. */
    ghost function Ceiling(): nat
      reads `parms, `base, base
    {
      if Connected() then 3 * |base.fixed| + 5 else 3
    }

    ghost predicate Owned()
      reads `base, `destination, base
    {
      base != null && base.source == local && base.destination == destination
    }

    ghost predicate Connected()
      reads `parms, `base, base
    {
      Transferring() && base != null && base.connected
    }

    /** How many more transitions the ceiling leaves than a run from `n` can make. */
    ghost function Slack(n: State): int
      reads `parms, `base, base
    {
      Ceiling() - Rank(n, TagsLeft())
    }

    /** What the handler of `s` leaves behind with the answer `o`: one transition is used up. */
    twostate predicate Entered(s: State, o: Outcome)
      reads `parms, `transitions, `handlers, `base, `deleter, `destination, `jobID
      reads `start, `past, `pastLocal, `pastRemote, `closed, `rows, `origin
      reads db, local, base, destination, deleter
    {
      && Standing() && destination == old(destination)
      && (o.Go? ==> o.next in Answers(s) && Phase(s, o.next))
      && (o.Fail? ==> o.err == OtherErr && Working(s) && s != Running && Rank(s, old(TagsLeft())) > 0)
      && (o.Fail? ==> FaultsLeadTo(Error))
      && Slack(if o.Go? then o.next else Error) > old(Slack(s))
      && (old(Connected()) ==> Connected())
      && (o.Go? && Connected() == old(Connected()) ==> Rank(o.next, TagsLeft()) < Rank(s, old(TagsLeft())))
    }

    /** What the one failure of a handler leads to. */
    twostate lemma BlameLeads(new failure: Option<Err>)
      requires old(base) != null && base == old(base) && old(destination) != null && destination == old(destination)
      requires base.source == local && base.destination == destination
      requires pastLocal == old(pastLocal) && pastRemote == old(pastRemote)
      requires pastLocal <= old(local.faults) && pastRemote <= old(destination.faults) && old(Faults()) == []
      requires base.Blamed(failure)
      ensures pastLocal <= local.faults && pastRemote <= destination.faults && Faults() == Fault(failure)
    {
    }

    /** Where a transfer begins nothing has been copied. */
    lemma StartsAtNothing(b: BaseHandler)
      requires b == base && Untouched() && b.destination == destination && b.tags == b.fixed
      requires past <= destination.history
      ensures b.Progress(start, |past|)
    {
      hide Between, Advanced;
      assert b.tags == b.fixed[|b.fixed| - |b.tags|..];
      NothingCopiedYet(destination.content, b.source.content, b.fixed);
    }

    method EnterInitialize(b: BaseHandler) returns (o: Outcome)
      requires b == base && Standing() && Phase(currentState, Initialize)
      modifies local, base, destination
      ensures Entered(Initialize, o)
    {
      hide OnlyStatus, Between, Closed, DeletedPartly, From, BaseHandler.Progress, Faults;
      hide TransferHandlersOf, DeleteHandlersOf, CommonHandlers, TableOf, TRANSFER_TABLE, DELETE_TABLE;
      assert !b.connected;
      var r := b.Initialize();
      o := WithRetry(r);
      BlameLeads(FailureOf(r));
      hide BaseHandler.Blamed;
      if b.connected { StartsAtNothing(b); }
      assert Standing();
    }

    method EnterCheck(b: BaseHandler) returns (o: Outcome)
      requires b == base && Standing() && Phase(currentState, Check)
      modifies base, destination
      ensures Entered(Check, o)
    {
      hide OnlyStatus, Between, Closed, DeletedPartly, BaseHandler.Blamed, Faults;
      hide TransferHandlersOf, DeleteHandlersOf, CommonHandlers, TableOf, TRANSFER_TABLE, DELETE_TABLE;
      var known: bool := *;
      var r := b.CheckProject(known);
      o := WithRetry(r);
      BlameLeads(FailureOf(r));
    }

    method EnterPullManifest(b: BaseHandler) returns (o: Outcome)
      requires b == base && Standing() && Phase(currentState, State.PullManifest)
      modifies local, base, destination
      ensures Entered(State.PullManifest, o)
    {
      hide OnlyStatus, Between, Closed, DeletedPartly, BaseHandler.Blamed, Faults;
      hide TransferHandlersOf, DeleteHandlersOf, CommonHandlers, TableOf, TRANSFER_TABLE, DELETE_TABLE;
      var r := b.PullManifest();
      o := WithRetry(r);
      BlameLeads(FailureOf(r));
    }

    method EnterTransferBlob(b: BaseHandler) returns (o: Outcome)
      requires b == base && Standing() && Phase(currentState, State.TransferBlob)
      modifies local, destination
      ensures Entered(State.TransferBlob, o)
    {
      hide OnlyStatus, Between, Closed, DeletedPartly, BaseHandler.Blamed, Faults;
      hide TransferHandlersOf, DeleteHandlersOf, CommonHandlers, TableOf, TRANSFER_TABLE, DELETE_TABLE;
      var r := b.TransferBlob(start, |past|);
      o := WithRetry(r);
      BlameLeads(FailureOf(r));
    }

    method EnterPushManifest(b: BaseHandler) returns (o: Outcome)
      requires b == base && Standing() && Phase(currentState, State.PushManifest)
      modifies local, base, destination
      ensures Entered(State.PushManifest, o)
    {
      hide OnlyStatus, Between, Closed, DeletedPartly, BaseHandler.Blamed, Faults;
      hide TransferHandlersOf, DeleteHandlersOf, CommonHandlers, TableOf, TRANSFER_TABLE, DELETE_TABLE;
      var r := b.PushManifest(start, |past|);
      o := WithRetry(r);
      BlameLeads(FailureOf(r));
    }

    twostate lemma DeletionLeads(new failure: Option<Err>)
      requires base == null && old(base) == null && old(destination) != null && destination == old(destination)
      requires pastLocal == old(pastLocal) && pastRemote == old(pastRemote) && local.faults == old(local.faults)
      requires pastLocal <= old(local.faults) && pastRemote <= old(destination.faults) && old(Faults()) == []
      requires destination.faults == old(destination.faults) + Fault(failure)
      ensures pastRemote <= destination.faults && Faults() == Fault(failure)
    {
    }

    method EnterDelete(d: Deleter) returns (o: Outcome)
      requires d == deleter && Standing() && Phase(currentState, State.Delete)
      modifies destination
      ensures Entered(State.Delete, o)
    {
      hide OnlyStatus, Between, Closed, BaseHandler.Progress, BaseHandler.CacheRight, Faults, From;
      hide TransferHandlersOf, DeleteHandlersOf, CommonHandlers, TableOf, TRANSFER_TABLE, DELETE_TABLE;
      var r := d.Enter();
      o := WithRetry(r);
      DeletionLeads(FailureOf(r));
    }

    /** Writes the status `state`; the statuses that end a run name no next state. */
    method EnterStatus(state: State) returns (o: Outcome)
      requires Standing() && Phase(currentState, state) && state in {Running, Stopped, Error, Finished}
      modifies db`jobs
      ensures Entered(state, o) && o.Go?
    {
      hide OnlyStatus, Between, Closed, DeletedPartly, Advanced, BaseHandler.Progress, BaseHandler.CacheRight, Faults;
      hide TransferHandlersOf, DeleteHandlersOf, CommonHandlers, TableOf, TRANSFER_TABLE, DELETE_TABLE;
      UpdateKeepsOnlyStatus(rows, db.jobs, jobID, state);
      db.UpdateRepJobStatus(jobID, state);
      o := Go(if state in {Stopped, Error, Finished} then NoState else Continue);
    }

    /** Hands the job to the rescheduler. */
    method EnterRetrying() returns (o: Outcome)
      requires Standing() && Phase(currentState, Retrying)
      modifies db`jobs, this`rescheduled
      ensures Entered(Retrying, o) && o.Go? && rescheduled == old(rescheduled) + [jobID]
    {
      hide OnlyStatus, Between, Closed, DeletedPartly, Advanced, BaseHandler.Progress, BaseHandler.CacheRight, Faults;
      hide TransferHandlersOf, DeleteHandlersOf, CommonHandlers, TableOf, TRANSFER_TABLE, DELETE_TABLE;
      UpdateKeepsOnlyStatus(rows, db.jobs, jobID, Retrying);
      db.UpdateRepJobStatus(jobID, Retrying);
      rescheduled := rescheduled + [jobID];
      o := Go(NoState);
    }

    /** The handler of a state is the one for it, and works on what this machine holds. */
    lemma HandlerOf(s: State)
      requires Standing() && Phase(currentState, s) && s in handlers
      ensures match handlers[s]
        case StatusUpdater(_, state) => state == s && s in {Running, Stopped, Error, Finished}
        case Retry(_) => s == Retrying
        case Initializer(b) => b == base && s == Initialize
        case Checker(b) => b == base && s == Check
        case ManifestPuller(b) => b == base && s == State.PullManifest
        case BlobTransfer(b) => b == base && s == State.TransferBlob
        case ManifestPusher(b) => b == base && s == State.PushManifest
        case DeleteHandler(d) => d == deleter && s == State.Delete
    {
      hide TableOf, TransferHandlersOf, DeleteHandlersOf, CommonHandlers;
      hide OnlyStatus, DeletedPartly, BaseHandler.Progress, BaseHandler.CacheRight;
      if Transferring() { TransferHandlerOf(jobID, base, s); } else { DeleteHandlerOf(jobID, deleter, s); }
    }

    method EnterHandler(h: Handler, ghost s: State) returns (o: Outcome)
      requires Standing() && Phase(currentState, s) && s in handlers && h == handlers[s]
      modifies db`jobs, local, base, destination, this`rescheduled
      ensures Entered(s, o)
      ensures rescheduled == if s == Retrying then old(rescheduled) + [jobID] else old(rescheduled)
    {
      hide Phase, Standing, Entered;
      HandlerOf(s);
      match h
      case StatusUpdater(_, state) => o := EnterStatus(state);
      case Retry(_) => o := EnterRetrying();
      case Initializer(b) => o := EnterInitialize(b);
      case Checker(b) => o := EnterCheck(b);
      case ManifestPuller(b) => o := EnterPullManifest(b);
      case BlobTransfer(b) => o := EnterTransferBlob(b);
      case ManifestPusher(b) => o := EnterPushManifest(b);
      case DeleteHandler(d) => o := EnterDelete(d);
    }

    /** The state a run goes to next is always one the tables know. */
    lemma PhaseIsLegal(s: State)
      requires Standing() && Phase(currentState, s) && s !in {NoState, Continue}
      ensures Legal(transitions, currentState, s) && s in handlers
      ensures Working(s) && s != Running ==> Working(currentState)
    {
    }

    /** One transition. The error `NoTransition` never comes up in a run. */
    method EnterState(s: State) returns (o: Outcome)
      requires Standing() && Phase(currentState, s) && s !in {NoState, Continue}
      modifies this`currentState, this`previousState, this`rescheduled, db`jobs, local, base, destination
      ensures Entered(s, o)
      ensures if o.Go? then currentState == s && previousState == old(currentState)
              else currentState == old(currentState) && Working(currentState)
      ensures rescheduled == if s == Retrying then old(rescheduled) + [jobID] else old(rescheduled)
    {
      hide Phase, Standing, Legal, Entered, Slack, Connected, TagsLeft, Ceiling, Rank, Answers;
      PhaseIsLegal(s);
      o := Transit(s);
      if o.Go? { previousState, currentState := currentState, s; }
    }

    /** The guard of the tables and then the handler of the state, if it has one. */
    method Transit(s: State) returns (o: Outcome)
      requires Standing() && Phase(currentState, s) && s !in {NoState, Continue}
      modifies this`rescheduled, db`jobs, local, base, destination
      ensures Entered(s, o) && (o.Fail? ==> Working(s) && s != Running)
      ensures rescheduled == if s == Retrying then old(rescheduled) + [jobID] else old(rescheduled)
    {
      hide Phase, Standing, Ceiling, TagsLeft, Rank, Answers;
      PhaseIsLegal(s);
      if !Legal(transitions, currentState, s) { return Fail(NoTransition); }
      o := Go(Continue);
      if s in handlers { o := EnterHandler(handlers[s], s); }
    }

    lemma OneWayFromRunning()
      requires Standing() && Phase(currentState, Continue)
      ensures var n := if Transferring() then Initialize else State.Delete;
              Targets(transitions, currentState) == {n} && Phase(currentState, n) && Slack(n) == Slack(Continue)
    {
      hide Targets, TRANSFER_TABLE, DELETE_TABLE, TransferHandlersOf, DeleteHandlersOf, CommonHandlers;
      hide OnlyStatus, DeletedPartly, BaseHandler.Progress, BaseHandler.CacheRight, Faults;
      OneTargetOfRunning();
    }

    lemma StopIsNext(n: State)
      requires Standing() && Phase(currentState, n) && n !in {NoState, Running, Error}
      ensures Phase(currentState, Stopped) && Slack(Stopped) >= Slack(n)
      ensures Rank(Stopped, TagsLeft()) <= Rank(n, TagsLeft())
    {
    }

    /** A stop request still counts: it waits to be seen, or it has already been turned into
        the next state. */
    ghost predicate StopSeen(o: Outcome)
      reads `desiredState, `hit
    {
      && (desiredState != NoState ==> hit && desiredState == Stopped)
      && (hit && o.Go? ==> desiredState == Stopped || o.next in {Stopped, NoState})
      && (o == Go(Stopped) ==> hit)
    }

    /** Looks at the desired state and resets it, if there is one; Stop calls may land in between. */
    method Poll(left: nat) returns (d: State, rest: nat)
      requires desiredState != NoState ==> hit && desiredState == Stopped
      modifies this`desiredState, this`hit
      ensures d in {old(desiredState), Stopped} && d in {NoState, Stopped} && (old(hit) ==> hit)
      ensures desiredState != NoState ==> hit && desiredState == Stopped
      ensures d == Stopped ==> hit && desiredState == NoState && rest + Waiting() < left + old(Waiting())
      ensures d == NoState ==> old(desiredState) == NoState && rest + Waiting() <= left + old(Waiting())
      ensures d == NoState && hit && !old(hit) ==> desiredState == Stopped
    {
      rest := OthersStop(left);
      d := desiredState;
      rest := OthersStop(rest);
      if d != NoState { desiredState := NoState; }
    }

    /** What Start does with a next state before it enters it (`enter`) or looks again. */
    method Choose(n: State, left: nat) returns (o: Outcome, enter: bool, rest: nat, ghost seen: State)
      requires Standing() && Phase(currentState, n) && n !in {NoState, Running, Error} && StopSeen(Go(n))
      modifies this`desiredState, this`hit
      ensures Standing() && o.Go? && Phase(currentState, o.next) && StopSeen(o) && (old(hit) ==> hit)
      ensures seen in {old(desiredState), Stopped}
      ensures LookAt(transitions, currentState, n, seen) == if enter then EnterIt else GoFor(o.next)
      ensures Rank(o.next, TagsLeft()) <= Rank(n, TagsLeft()) && Slack(o.next) >= old(Slack(n))
      ensures o.next !in {NoState, Continue, Running, Error}
      ensures rest + Waiting() <= left + old(Waiting())
      ensures enter ==> o.next == n && (hit && Working(n) ==> desiredState == Stopped)
      ensures enter && old(hit) ==> n == Stopped
      ensures !enter ==> rest + Waiting() < left + old(Waiting()) || n == Continue
    {
      hide Phase, Standing, TagsLeft, Slack, Targets;
      StopIsNext(n);
      var d;
      d, rest := Poll(left);
      seen := d;
      if d != NoState { return Go(d), false, rest, seen; }
      if n != Continue { return Go(n), true, rest, seen; }
      OneWayFromRunning();
      if |Targets(transitions, currentState)| != 1 { return Fail(UnableToContinue), false, rest, seen; }
      return Go(Only(Targets(transitions, currentState))), false, rest, seen;
    }

    /** Remembers how things are when a run begins. */
    ghost method Mark()
      requires destination != null
      modifies this`start, this`past, this`pastLocal, this`pastRemote, this`closed, this`origin, this`rows
      ensures start == destination.content && past == destination.history && closed == destination.AlwaysClosed()
      ensures pastLocal == local.faults && pastRemote == destination.faults
      ensures origin == local.content && rows == db.jobs
    {
      start, past, closed := destination.content, destination.history, destination.AlwaysClosed();
      pastLocal, pastRemote := local.faults, destination.faults;
      origin, rows := local.content, db.jobs;
    }

    lemma SteadySinceMark()
      requires Standing()
      ensures local.quiet ==> local.content == origin
    {
    }

    lemma ReadyIsStanding()
      requires parms.Some? && parms.value.operation in {Transfer, Operation.Delete}
      requires ReadyFor(parms.value.operation, parms.value.tags) && jobID in db.jobs && rows == db.jobs
      requires destination != null && destination.Valid() && start == destination.content
      requires past == destination.history && pastLocal == local.faults && pastRemote == destination.faults
      requires closed == destination.AlwaysClosed() && origin == local.content
      ensures Standing() && Phase(currentState, Running)
    {
    }

    /** Remembers it and is ready to go. */
    ghost method Prepare()
      requires parms.Some? && parms.value.operation in {Transfer, Operation.Delete}
      requires ReadyFor(parms.value.operation, parms.value.tags) && jobID in db.jobs
      requires destination != null && destination.Valid()
      modifies this`start, this`past, this`pastLocal, this`pastRemote, this`closed, this`origin, this`rows
      ensures Standing() && Phase(currentState, Running)
      ensures start == destination.content && past == destination.history && closed == destination.AlwaysClosed()
      ensures pastLocal == local.faults && pastRemote == destination.faults
      ensures origin == local.content && rows == db.jobs
    {
      hide Standing, Phase, ReadyFor, Destination.AlwaysClosed, Destination.Valid;
      Mark();
      ReadyIsStanding();
    }

    lemma ErrorIsNext()
      requires Standing() && Working(currentState) && FaultsLeadTo(Error)
      ensures Phase(currentState, Error)
    {
    }

    lemma RunBegins()
      requires Standing() && Phase(currentState, Running)
      ensures Slack(Running) == 0 && destination != null
    {
    }

    /** The order in which a run makes progress. */
    ghost function Distance(o: Outcome, left: nat): (nat, nat, nat, nat)
      reads `desiredState, `parms, `base, base
    {
      (left + Waiting(), if Connected() then 0 else 1,
       if o.Go? then Rank(o.next, TagsLeft()) else 0, if o == Go(Continue) then 1 else 0)
    }

    /** Enters the state chosen. */
    method EnterChosen(n: State) returns (o: Outcome)
      requires Standing() && Phase(currentState, n) && Working(currentState)
      requires n !in {NoState, Continue, Running, Error}
      requires StopSeen(Go(n)) && (hit && Working(n) ==> desiredState == Stopped)
      modifies this`currentState, this`previousState, this`rescheduled, db`jobs, local, base, destination
      ensures Standing() && StopSeen(o) && o !in {Go(Running), Go(Error)}
      ensures Phase(currentState, if o.Go? then o.next else Error)
      ensures o != Go(NoState) ==> Working(currentState)
      ensures Slack(if o.Go? then o.next else Error) > old(Slack(n))
      ensures currentState == Stopped ==> hit
      ensures rescheduled == old(rescheduled) + if currentState == Retrying then [jobID] else []
      ensures old(Connected()) ==> Connected()
      ensures o.Go? && Connected() == old(Connected()) ==> Rank(o.next, TagsLeft()) < Rank(n, old(TagsLeft()))
      ensures o.Fail? ==> Rank(n, old(TagsLeft())) > 0
    {
      hide Phase, Standing, Ceiling, TagsLeft, Connected, Slack, Rank, Legal, Targets, TableOf, OnlyStatus;
      o := EnterState(n);
      if o.Fail? { ErrorIsNext(); }
    }

    /** One turn of the loop of Start: `made` transitions, `worked` of them into a working
        state although a stop had landed. */
    method Turn(n: State, left: nat) returns (o: Outcome, rest: nat, ghost made: nat, ghost worked: nat)
      requires Standing() && Phase(currentState, n) && n !in {NoState, Running, Error} && StopSeen(Go(n))
      requires Working(currentState)
      modifies this`currentState, this`previousState, this`rescheduled, this`desiredState, this`hit
      modifies db`jobs, local, base, destination
      ensures Standing() && o !in {Go(Running), Go(Error)} && StopSeen(o)
      ensures if o.Go? then Phase(currentState, o.next) else Phase(currentState, Error)
      ensures o != Go(NoState) ==> Working(currentState)
      ensures Slack(if o.Go? then o.next else Error) >= old(Slack(n)) + made
      ensures (old(hit) ==> hit) && worked <= 1 && (worked == 1 ==> hit && !old(hit))
      ensures currentState == Stopped ==> hit
      ensures rescheduled == old(rescheduled) + if currentState == Retrying then [jobID] else []
      ensures var a, b := old(Distance(Go(n), left)), Distance(o, rest);
              (a.0, a.1, a.2, a.3 decreases to b.0, b.1, b.2, b.3)
    {
      hide Phase, Standing, Ceiling, TagsLeft, Connected, Slack, LookAt, Targets, TableOf, StopSeen;
      var enter;
      made, worked := 0, 0;
      ghost var seen;
      o, enter, rest, seen := Choose(n, left);
      if enter {
        made := 1;
        if hit && Working(n) { worked := 1; }
        o := EnterChosen(n);
      }
    }

    /** The first transition of a run; Stop calls may land before it. */
    method Begin(s: State, stops: nat) returns (o: Outcome, left: nat, ghost afterHit: nat)
      requires s == Running && Standing() && Phase(currentState, Running)
      requires (hit <==> desiredState == Stopped) && desiredState in {NoState, Stopped}
      modifies this`currentState, this`previousState, this`rescheduled, this`desiredState, this`hit
      modifies db`jobs, local, base, destination
      ensures Standing() && Phase(currentState, if o.Go? then o.next else Error)
      ensures o != Go(NoState) && o !in {Go(Running), Go(Error)} && Working(currentState) && StopSeen(o)
      ensures 1 <= Slack(if o.Go? then o.next else Error)
      ensures afterHit <= 1 && (!hit ==> afterHit == 0) && currentState != Stopped
      ensures rescheduled == old(rescheduled) && currentState != Retrying
    {
      hide Phase, Standing, Ceiling, TagsLeft, Connected, Slack, Rank, Legal;
      RunBegins();
      left := OthersStop(stops);
      afterHit := if hit then 1 else 0;
      o := EnterState(s);
      if o.Fail? { ErrorIsNext(); }
    }

    /** Runs the machine from `s`, with at most `stops` Stop calls landing meanwhile. `entered`
        counts the transitions made and `afterHit` the working states entered after a stop. */
    method Start(s: State, stops: nat) returns (ghost entered: nat, ghost afterHit: nat)
      requires s == Running && Standing() && Phase(currentState, Running)
      requires hit <==> desiredState == Stopped
      requires desiredState in {NoState, Stopped}
      modifies this`currentState, this`previousState, this`rescheduled, this`desiredState, this`hit
      modifies db`jobs, local, base, destination
      ensures Standing() && Phase(currentState, NoState)
      ensures entered <= Slack(NoState) && afterHit <= 1 && (!hit ==> afterHit == 0)
      ensures currentState == Stopped ==> hit
      ensures rescheduled == if currentState == Retrying then old(rescheduled) + [jobID] else old(rescheduled)
    {
      hide Phase, Standing, Ceiling, TagsLeft, Connected, Slack, Rank, Distance, Legal, StopSeen;
      var o, left;
      o, left, afterHit := Begin(s, stops);
      entered := 1;
      while o.Go? && o.next != NoState
        invariant Standing() && Phase(currentState, if o.Go? then o.next else Error)
        invariant o != Go(NoState) ==> Working(currentState)
        invariant entered <= Slack(if o.Go? then o.next else Error)
        invariant afterHit <= 1 && (!hit ==> afterHit == 0) && StopSeen(o)
        invariant o !in {Go(Running), Go(Error)} && (currentState == Stopped ==> hit)
        invariant rescheduled == if currentState == Retrying then old(rescheduled) + [jobID] else old(rescheduled)
        decreases Distance(o, left).0, Distance(o, left).1, Distance(o, left).2, Distance(o, left).3
      {
        ghost var made, worked;
        o, left, made, worked := Turn(o.next, left);
        entered, afterHit := entered + made, afterHit + worked;
      }
      if o.Fail? {
        entered := entered + 1;
        o := EnterState(Error);
      }
    }

    /** Runs the machine that Reset made ready. */
    method Run(stops: nat) returns (ghost entered: nat, ghost afterHit: nat)
      requires parms.Some? && ReadyFor(parms.value.operation, parms.value.tags)
      requires parms.value.operation in {Transfer, Operation.Delete}
      requires destination != null && destination.Valid() && jobID in db.jobs
      requires (hit <==> desiredState == Stopped) && desiredState in {NoState, Stopped}
      modifies this`currentState, this`previousState, this`rescheduled, this`desiredState, this`hit
      modifies this`start, this`past, this`pastLocal, this`pastRemote, this`closed, this`origin, this`rows
      modifies db`jobs, local, base, destination
      ensures Standing() && Phase(currentState, NoState)
      ensures rows == old(db.jobs) && start == old(destination.content) && past == old(destination.history)
      ensures pastLocal == old(local.faults) && pastRemote == old(destination.faults)
      ensures closed == old(destination.AlwaysClosed()) && local.Steady()
      ensures afterHit <= 1 && entered <= Slack(NoState) && (currentState == Stopped ==> hit)
      ensures rescheduled == old(rescheduled) + if currentState == Retrying then [jobID] else []
    {
      hide Standing, Phase, ReadyFor, Slack, Destination.AlwaysClosed, Destination.Valid;
      Prepare();
      entered, afterHit := Start(Running, stops);
      SteadySinceMark();
    }
  }

  /** A worker hands each job id it receives to its machine. */
  class Worker {
    const sm: SM

    constructor (db: Database, local: Source)
      ensures fresh(sm) && sm.db == db && sm.local == local
    {
      sm := new SM(db, local);
    }

    /** Resets the machine for a job. Stop calls may land from the moment it has taken the job. */
    method Reset(id: int, stops: nat) returns (failure: Option<Err>, rest: nat)
      requires id in sm.db.jobs
      modifies sm
      ensures sm.jobID == id && sm.rescheduled == old(sm.rescheduled)
      ensures (sm.hit <==> sm.desiredState == Stopped) && sm.desiredState in {NoState, Stopped}
      ensures failure.None? <==> sm.db.Loadable(sm.db.jobs[id])
      ensures failure.None? ==> sm.parms == Some(sm.db.ParmsOf(sm.db.jobs[id]))
      ensures failure.None? && sm.parms.value.enabled != 0 ==>
        && sm.ReadyFor(sm.parms.value.operation, sm.parms.value.tags)
        && sm.destination == sm.db.TargetOf(sm.db.jobs[id])
        && (if sm.parms.value.operation == Transfer then fresh(sm.base) else sm.base == null)
    {
      sm.Take(id);
      rest := sm.OthersStop(stops);
      failure := sm.Load();
    }

    /** What a run of the job row `j` may have done to its destination, from `d0` to `d`. */
    ghost predicate Result(j: Job, d0: Content, from: nat, status: State)
      reads sm, sm.local, sm.destination
    {
      && sm.destination != null
      && var d, src := sm.destination.content, sm.local.content;
      && (j.operation == Transfer && sm.local.quiet && sm.destination.quiet ==>
            && Between(d0, d, src, Wanted(j.tags, src))
            && sm.destination.BetweenSince(from, d0, src, Wanted(j.tags, src))
            && (status == Finished ==>
                  && d == Replicated(d0, src, Wanted(j.tags, src))
                  && forall t | t in Wanted(j.tags, src) :: Copied(d, src, t)))
      && (j.operation == Operation.Delete && sm.destination.quiet ==>
            && DeletedPartly(d0, d, j.tags)
            && (status == Finished ==> d == Deleted(d0, j.tags)))
    }

    /** Unless it was stopped, the run ended as its failures demand. */
    ghost predicate Judged(status: State)
      reads sm, sm.local, sm.base, sm.destination
    {
      && sm.destination != null
      && sm.pastLocal <= sm.local.faults && sm.pastRemote <= sm.destination.faults
      && (sm.Faults() == [] || sm.Faults() == [NetworkErr] || sm.Faults() == [OtherErr])
      && (status == Stopped || status == Fate(sm.Faults()))
    }

    lemma ResultOfRun(j: Job)
      requires sm.Standing() && sm.Phase(sm.currentState, NoState)
      requires j.operation == sm.parms.value.operation && j.tags == sm.parms.value.tags
      ensures Result(j, sm.start, |sm.past|, sm.currentState)
    {
      if sm.Transferring() && sm.local.quiet && sm.destination.quiet && sm.Connected() {
        var src, fixed := sm.local.content, sm.base.fixed;
        SameTagsSameResult(sm.start, src, fixed, Wanted(j.tags, src));
        if sm.currentState == Finished { CopiedAllIsReplicated(sm.start, sm.destination.content, src, fixed); }
      }
    }

    /** Runs the machine for the job of the row `j`, which Reset has taken on. */
    method RunJob(ghost j: Job, stops: nat) returns (ghost entered: nat, ghost afterHit: nat)
      requires sm.jobID in sm.db.jobs && j == sm.db.jobs[sm.jobID]
      requires sm.parms.Some? && j.operation == sm.parms.value.operation && j.tags == sm.parms.value.tags
      requires sm.ReadyFor(j.operation, j.tags) && j.operation in {Transfer, Operation.Delete}
      requires sm.destination != null && sm.destination.Valid()
      requires (sm.hit <==> sm.desiredState == Stopped) && sm.desiredState in {NoState, Stopped}
      modifies sm, sm.db`jobs, sm.local, sm.base, sm.destination
      ensures sm.jobID == old(sm.jobID) && sm.destination == old(sm.destination) && sm.local.Steady()
      ensures sm.jobID in sm.db.jobs && sm.db.jobs[sm.jobID].status in {Finished, Error, Stopped, Retrying}
      ensures sm.db.jobs == old(sm.db.jobs)[sm.jobID := j.(status := sm.db.jobs[sm.jobID].status)]
      ensures Result(j, old(sm.destination.content), old(|sm.destination.history|), sm.db.jobs[sm.jobID].status)
      ensures sm.destination.Valid() && old(sm.destination.history) <= sm.destination.history
      ensures old(sm.destination.AlwaysClosed()) ==> sm.destination.AlwaysClosed()
      ensures sm.db.jobs[sm.jobID].status == Stopped ==> sm.hit
      ensures sm.pastLocal == old(sm.local.faults) && sm.pastRemote == old(sm.destination.faults)
      ensures Judged(sm.db.jobs[sm.jobID].status)
      ensures afterHit <= 1 && entered <= if sm.base == null then 3 else 3 * |sm.base.fixed| + 5
      ensures (j.operation == Transfer) == (sm.base != null)
      ensures sm.rescheduled == old(sm.rescheduled)
        + if sm.db.jobs[sm.jobID].status == Retrying then [sm.jobID] else []
    {
      hide SM.Standing, SM.Phase, SM.ReadyFor, SM.Slack, SM.Ceiling, SM.Tables, SM.Faults, Result, Judged;
      hide Destination.AlwaysClosed, Destination.Valid, Destination.BetweenSince, Fate;
      entered, afterHit := sm.Run(stops);
      ResultOfRun(j);
      EndOfRun();
    }

    lemma EndOfRun()
      requires sm.Standing() && sm.Phase(sm.currentState, NoState)
      ensures sm.destination != null && sm.destination.Valid() && (sm.closed ==> sm.destination.AlwaysClosed())
      ensures sm.past <= sm.destination.history && OnlyStatus(sm.rows, sm.db.jobs, sm.jobID)
      ensures sm.currentState in {Finished, Stopped, Retrying, Error} && sm.db.jobs[sm.jobID].status == sm.currentState
      ensures sm.Slack(NoState) <= (if sm.base == null then 3 else 3 * |sm.base.fixed| + 5) && Judged(sm.currentState)
      ensures (sm.parms.value.operation == Transfer) == (sm.base != null)
    {
    }

    /** Handles one job: an absent row is an error, a disabled policy cancels, otherwise the
        machine runs. Only the status of this job changes in its table, a destination that was
        always closed stays so, and one transfer makes at most three transitions a tag and five. */
    method HandleRepJob(id: int, stops: nat) returns (ghost entered: nat, ghost afterHit: nat)
      requires id in sm.db.jobs && forall k | k in sm.db.targets :: sm.db.targets[k].Valid()
      modifies sm, sm.db`jobs, sm.local, sm.db.targets.Values
      ensures id in sm.db.jobs && sm.local.Steady()
      ensures var j := old(sm.db.jobs[id]);
              sm.db.jobs == old(sm.db.jobs)[id := j.(status := sm.db.jobs[id].status)]
      ensures !sm.db.Loadable(old(sm.db.jobs[id])) ==> sm.db.jobs[id].status == Error
      ensures sm.db.Loadable(old(sm.db.jobs[id])) ==>
        var j := old(sm.db.jobs[id]);
        var status := sm.db.jobs[id].status;
        if sm.db.policies[j.policyID].enabled == 0 then
          status == Canceled && forall k | k in sm.db.targets :: unchanged(sm.db.targets[k])
        else
          && status in {Finished, Error, Stopped, Retrying} && sm.destination == sm.db.TargetOf(j)
          && (j.operation == Transfer ==> sm.base != null)
          && (status == Stopped ==> sm.hit) && Judged(status)
          && sm.pastLocal == old(sm.local.faults) && sm.pastRemote == old(sm.db.TargetOf(j).faults)
          && Result(j, old(sm.db.TargetOf(j).content), old(|sm.db.TargetOf(j).history|), status)
          && sm.destination.Valid() && old(sm.db.TargetOf(j).history) <= sm.destination.history
          && (old(sm.db.TargetOf(j).AlwaysClosed()) ==> sm.destination.AlwaysClosed())
          && afterHit <= 1 && entered <= (if j.operation == Transfer then 3 * |sm.base.fixed| + 5 else 3)
          && (forall k | k in sm.db.targets :: sm.db.targets[k] == sm.destination || unchanged(sm.db.targets[k]))
      ensures sm.rescheduled == old(sm.rescheduled) + if sm.db.jobs[id].status == Retrying then [id] else []
    {
      hide Result, Judged, SM.ReadyFor, SM.Tables, SM.Ceiling, OnlyStatus;
      hide Destination.AlwaysClosed, Destination.Valid, Destination.BetweenSince;
      var failure, rest := Reset(id, stops);
      entered, afterHit := 0, 0;
      if failure.Some? {
        sm.db.UpdateRepJobStatus(id, Error);
        return;
      }
      if sm.parms.value.enabled == 0 {
        sm.db.UpdateRepJobStatus(id, Canceled);
        return;
      }
      entered, afterHit := RunJob(sm.db.jobs[id], rest);
    }

    /** Handles a transfer job between quiet registries whose rows are there. */
    method HandleTransfer(id: int, stops: nat)
      requires id in sm.db.jobs && forall k | k in sm.db.targets :: sm.db.targets[k].Valid()
      requires sm.db.jobs[id].operation == Transfer && sm.db.Loadable(sm.db.jobs[id])
      requires sm.db.policies[sm.db.jobs[id].policyID].enabled != 0
      requires sm.local.quiet && sm.db.TargetOf(sm.db.jobs[id]).quiet
      modifies sm, sm.db`jobs, sm.local, sm.db.targets.Values
      ensures id in sm.db.jobs && sm.local.content == old(sm.local.content)
      ensures sm.db.jobs[id] == old(sm.db.jobs[id]).(status := sm.db.jobs[id].status)
      ensures forall k | k in sm.db.targets :: sm.db.targets[k].Valid()
      ensures var target := sm.db.TargetOf(old(sm.db.jobs[id])); var src := sm.local.content;
        var list := Wanted(old(sm.db.jobs[id]).tags, src);
        && Between(old(target.content), target.content, src, list)
        && old(target.history) <= target.history
        && target.BetweenSince(old(|target.history|), old(target.content), src, list)
        && (sm.db.jobs[id].status == Finished ==> target.content == Replicated(old(target.content), src, list))
    {
      hide Between, Replicated, Closed, Wanted, Copied, Destination.AlwaysClosed, Destination.BetweenSince;
      hide SM.Ceiling, Judged;
      var _, _ := HandleRepJob(id, stops);
    }

    /** A transfer job that ends `retrying` comes back to be handled anew, here at most `again` times. Once
        it finishes the destination is what one uninterrupted finished run would have left. Were it cut
        short by a crash at any other moment, a finished run from there would leave that, too. */
    method HandleWithRetries(id: int, again: nat, stops: nat)
      requires id in sm.db.jobs && forall k | k in sm.db.targets :: sm.db.targets[k].Valid()
      requires sm.db.jobs[id].operation == Transfer && sm.db.jobs[id].status in {Pending, Retrying}
      requires sm.db.Loadable(sm.db.jobs[id])
      requires sm.db.policies[sm.db.jobs[id].policyID].enabled != 0
      requires sm.local.quiet && sm.db.TargetOf(sm.db.jobs[id]).quiet
      modifies sm, sm.db`jobs, sm.local, sm.db.targets.Values
      ensures id in sm.db.jobs && sm.local.content == old(sm.local.content)
      ensures var target := sm.db.TargetOf(old(sm.db.jobs[id])); var src := sm.local.content;
        var d0, from, list := old(target.content), old(|target.history|), Wanted(old(sm.db.jobs[id]).tags, src);
        && (sm.db.jobs[id].status == Finished ==> target.content == Replicated(d0, src, list))
        && Between(d0, target.content, src, list)
        && target.BetweenSince(from, d0, src, list)
        && forall i | from <= i < |target.history| ::
             Replicated(target.history[i], src, list) == Replicated(d0, src, list)
    {
      ghost var j := sm.db.jobs[id];
      ghost var target := sm.db.TargetOf(j);
      ghost var d0, from, src := target.content, |target.history|, sm.local.content;
      ghost var list := Wanted(j.tags, src);
      hide Between, Replicated, Closed, Wanted, Copied, Destination.AlwaysClosed;
      NothingBetween(d0, src, list);
      var left, status := again, Retrying;
      while status == Retrying && left > 0
        invariant sm.local.content == src && id in sm.db.jobs && (left == again || sm.db.jobs[id].status == status)
        invariant sm.db.jobs[id].status in {Pending, Retrying} || left < again
        invariant sm.db.jobs[id] == j.(status := sm.db.jobs[id].status)
        invariant forall k | k in sm.db.targets :: sm.db.targets[k].Valid()
        invariant Between(d0, target.content, src, list) && target.BetweenSince(from, d0, src, list)
        invariant status == Finished ==> target.content == Replicated(d0, src, list)
      {
        ghost var before, past := target.content, target.history;
        HandleTransfer(id, stops);
        status, left := sm.db.jobs[id].status, left - 1;
        AttemptsJoin(past, target.history, from, d0, before, target.content, src, list);
      }
      AllAreAbsorbed(target.history, from, d0, src, list);
    }
  }
}
