/** The states of a replication job, the transition tables of the job state machine
    and what a state handler may answer. */
module States {

  /** `NoState` is the empty string and `Continue` the marker `_continue` of the original;
      the other names are the job statuses and the working states of the handlers. */
  datatype State =
    | NoState | Continue
    | Pending | Running | Error | Stopped | Finished | Canceled | Retrying
    | Initialize | Check | PullManifest | TransferBlob | PushManifest | Delete

  datatype Operation = Transfer | Delete | Unsupported(name: string)

  /** A call fails with a network error, which makes the job retry, or with another error;
      the last two are raised by the state machine itself. */
  datatype Err = NetworkErr | OtherErr | NoTransition | UnableToContinue | Missing

  /** The answer of a handler or of one transition: the next state, or an error. */
  datatype Outcome = Go(next: State) | Fail(err: Err)

  /** A transition table is the set of its edges. */
  type Table = set<(State, State)>

  /** The states that need not be in a table. */
  const FORCED: set<State> := {Error, Stopped, Canceled, Retrying}

  /** The table both operations start from. */
  const COMMON_TABLE: Table := {(Pending, Running), (Retrying, Running)}

  const TRANSFER_TABLE: Table := COMMON_TABLE
    + {(Running, Initialize)} + {(Initialize, Check)} + {(Check, PullManifest)}
    + {(PullManifest, TransferBlob)} + {(PullManifest, Finished)}
    + {(TransferBlob, PushManifest)} + {(PushManifest, PullManifest)}

  const DELETE_TABLE: Table := COMMON_TABLE + {(Running, State.Delete)} + {(State.Delete, Finished)}

  function TableOf(op: Operation): Table {
    match op
    case Transfer => TRANSFER_TABLE
    case Delete => DELETE_TABLE
    case Unsupported(_) => COMMON_TABLE
  }

  function Targets(t: Table, s: State): set<State> {
    set e | e in t && e.0 == s :: e.1
  }

  lemma TransferEdge(from: State, to: State)
    ensures (from, to) in TRANSFER_TABLE <==>
      match from
      case Pending => to == Running
      case Retrying => to == Running
      case Running => to == Initialize
      case Initialize => to == Check
      case Check => to == PullManifest
      case PullManifest => to == TransferBlob || to == Finished
      case TransferBlob => to == PushManifest
      case PushManifest => to == PullManifest
      case _ => false
  {
  }

  lemma DeleteEdge(from: State, to: State)
    ensures (from, to) in DELETE_TABLE <==>
      match from
      case Pending => to == Running
      case Retrying => to == Running
      case Running => to == State.Delete
      case Delete => to == Finished
      case _ => false
  {
  }

  lemma OneTargetOfRunning()
    ensures Targets(TRANSFER_TABLE, Running) == {Initialize} && Targets(DELETE_TABLE, Running) == {State.Delete}
  {
    hide TRANSFER_TABLE, DELETE_TABLE;
    forall to {:trigger to in Targets(TRANSFER_TABLE, Running)}
      ensures to in Targets(TRANSFER_TABLE, Running) <==> to == Initialize
    {
      assert to in Targets(TRANSFER_TABLE, Running) <==> (Running, to) in TRANSFER_TABLE;
      TransferEdge(Running, to);
    }
    forall to {:trigger to in Targets(DELETE_TABLE, Running)}
      ensures to in Targets(DELETE_TABLE, Running) <==> to == State.Delete
    {
      assert to in Targets(DELETE_TABLE, Running) <==> (Running, to) in DELETE_TABLE;
      DeleteEdge(Running, to);
    }
  }

  /** The guard of a transition: in the table, or to a forced state. */
  predicate Legal(t: Table, from: State, to: State) {
    (from, to) in t || to in FORCED
  }

  /** States whose handler does a piece of the job, as opposed to ending it. */
  predicate Working(s: State) {
    s in {Running, Initialize, Check, PullManifest, TransferBlob, PushManifest, State.Delete}
  }

  /** Statuses after which nobody carries the job any more. */
  predicate Terminal(s: State) {
    s in {Error, Stopped, Finished, Canceled}
  }

  /** Statuses of a job that somebody carries or will carry. */
  predicate Unfinished(s: State) {
    s in {Pending, Running, Retrying}
  }

  /** The statuses a row can have. */
  const STATUSES: set<State> := {Pending, Running, Error, Stopped, Finished, Canceled, Retrying}

  lemma UnfinishedOrTerminal(s: State)
    requires s in STATUSES
    ensures Unfinished(s) <==> !Terminal(s)
  {
  }

  /** Every next state the handler of `s` can name when it does not fail. */
  function Answers(s: State): set<State> {
    match s
    case Running => {Continue}
    case Initialize => {Check, Retrying}
    case Check => {PullManifest, Retrying}
    case PullManifest => {TransferBlob, Finished, Retrying}
    case TransferBlob => {PushManifest, Retrying}
    case PushManifest => {PullManifest, Retrying}
    case Delete => {Finished, Retrying}
    case _ => {NoState}
  }

  /** Whatever a working handler answers, the table of its operation has the transition. */
  lemma AnswersAreLegal(op: Operation, cur: State, n: State, next: State)
    requires !op.Unsupported? && Legal(TableOf(op), cur, n)
    requires Working(n) && n != Running && next in Answers(n)
    ensures Legal(TableOf(op), n, next) && next !in {NoState, Continue, Running, Canceled}
  {
    hide TRANSFER_TABLE, DELETE_TABLE;
    if op.Transfer? {
      TransferEdge(cur, n);
      TransferEdge(n, next);
    } else {
      DeleteEdge(cur, n);
      DeleteEdge(n, next);
    }
  }

  /** Network errors become an answer to retry. */
  function WithRetry(o: Outcome): Outcome {
    if o == Fail(NetworkErr) then Go(Retrying) else o
  }

  /** The state `_continue` stands for when the table leaves exactly one choice. */
  function Only(targets: set<State>): (s: State)
    requires |targets| == 1
    ensures targets == {s}
  {
    SingletonHasOne(targets);
    var s :| s in targets;
    s
  }

  /** What Start decides at the top of its loop: to take another next state, to enter the one it has,
      or that it cannot go on. */
  datatype Look = GoFor(next: State) | EnterIt | Unable

  /** In state `cur` with the next state `n` and the desired state `d`. */
  function LookAt(t: Table, cur: State, n: State, d: State): Look {
    if d != NoState then GoFor(d)
    else if n != Continue then EnterIt
    else if |Targets(t, cur)| == 1 then GoFor(Only(Targets(t, cur)))
    else Unable
  }

  lemma SingletonHasOne(targets: set<State>)
    requires |targets| == 1
    ensures exists s :: s in targets && forall x :: x in targets ==> x == s
  {
    var s :| s in targets;
    assert |targets - {s}| == 0;
    assert forall x :: x !in targets - {s};
  }
}
