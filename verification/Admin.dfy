/** The administration of replication: handlers for policies, targets and projects as steps on the
    tables, run one at a time. */
module Admin {
  import opened States

  datatype Policy = Policy(project: int, target: int, enabled: int, partial: int, deleted: bool)

  datatype Target = Target(name: string, url: string)

  datatype JobRow = JobRow(policy: int, status: State)

  /** The tables; `next` is above every id given out. A project has its name. Jobs are written by others. */
  datatype Tables = Tables(
    projects: map<int, string>,
    targets: map<int, Target>,
    policies: map<int, Policy>,
    jobs: map<int, JobRow>,
    next: int)

  /** `Panic` is a handler that dereferences nil. */
  datatype Reply = Done | BadRequest | NotFound | Conflict | PreconditionFailed | Panic

  /** What a handler sets off at the job service. */
  datatype Effect = Nothing | Trigger(policy: int) | Stop(policy: int)

  predicate Live(t: Tables, p: int) {
    p in t.policies && !t.policies[p].deleted
  }

  /** The live policies a query by project and target finds. */
  predicate Taken(t: Tables, project: int, target: int) {
    exists p | p in t.policies :: Live(t, p) && t.policies[p].project == project && t.policies[p].target == target
  }

  predicate Used(t: Tables, target: int) {
    exists p | p in t.policies :: Live(t, p) && t.policies[p].target == target
  }

  predicate ProjectTaken(t: Tables, name: string) {
    exists k | k in t.projects :: t.projects[k] == name
  }

  predicate LowerOrDigit(c: char) {
    'a' <= c <= 'z' || '0' <= c <= '9'
  }

  /** Lower-case letters and digits, dashes between them, and dots and underscores each alone between two. */
  predicate LegalForm(name: string) {
    && name != "" && LowerOrDigit(name[0]) && LowerOrDigit(name[|name| - 1])
    && forall i | 0 < i < |name| - 1 ::
         || LowerOrDigit(name[i]) || name[i] == '-'
         || (name[i] in "._" && LowerOrDigit(name[i - 1]) && LowerOrDigit(name[i + 1]))
  }

  predicate LegalName(name: string) {
    4 <= |name| <= 100 && LegalForm(name)
  }

  const LETTERS := "abcdefghijklmnopqrstuvwxyz"
  const DIGITS := "0123456789"

  /** One part of a name: letters, with any dashes between two of them. */
  ghost predicate Part(s: string) {
    && s != "" && s[0] in LETTERS + DIGITS && s[|s| - 1] in LETTERS + DIGITS
    && forall c | c in s :: c in LETTERS + DIGITS || c == '-'
  }

  /** The regular expression for names: parts with one dot or underscore between two of them. */
  ghost predicate Parts(s: string) {
    Part(s) || exists k | 0 <= k < |s| :: s[k] in "._" && Part(s[..k]) && Parts(s[k + 1..])
  }

  lemma InLetters(c: char)
    ensures c in LETTERS <==> 'a' <= c <= 'z'
  {
    forall i | 0 <= i < 26 ensures LETTERS[i] == 'a' + i as char {}
    assert 'a' <= c <= 'z' ==> LETTERS[(c - 'a') as int] == c;
  }

  lemma InLettersOrDigits(c: char)
    ensures c in LETTERS || c in DIGITS <==> LowerOrDigit(c)
  {
    hide LETTERS;
    InLetters(c);
    forall i | 0 <= i < 10 ensures DIGITS[i] == '0' + i as char {}
    assert '0' <= c <= '9' ==> DIGITS[(c - '0') as int] == c;
  }

  lemma JoinedIsLegal(s: string, k: nat)
    requires k < |s| && s[k] in "._" && Part(s[..k]) && LegalForm(s[k + 1..])
    ensures LegalForm(s)
  {
    hide LETTERS, DIGITS, LowerOrDigit;
    forall c: char ensures c in LETTERS + DIGITS <==> LowerOrDigit(c) { InLettersOrDigits(c); }
    var a, b := s[..k], s[k + 1..];
    forall i | 0 < i < |s| - 1
      ensures LowerOrDigit(s[i]) || s[i] == '-' || (s[i] in "._" && LowerOrDigit(s[i - 1]) && LowerOrDigit(s[i + 1]))
    {
      if i < k {
        assert s[i] == a[i] && a[i] in a;
      } else if i == k {
        assert s[i - 1] == a[|a| - 1] && s[i + 1] == b[0];
      } else {
        assert s[i] == b[i - k - 1] && s[i + 1] == b[i - k];
        assert i > k + 1 ==> s[i - 1] == b[i - k - 2];
      }
    }
    assert s[0] == a[0] && s[|s| - 1] == b[|b| - 1];
  }

  lemma NoMark()
    ensures !LowerOrDigit('.') && !LowerOrDigit('_')
  {
  }

  lemma LegalIsJoined(s: string, k: nat)
    requires k < |s| && s[k] in "._" && (forall i | 0 <= i < k :: s[i] !in "._") && LegalForm(s)
    ensures Part(s[..k]) && LegalForm(s[k + 1..])
  {
    hide LETTERS, DIGITS, LowerOrDigit;
    forall c: char ensures c in LETTERS + DIGITS <==> LowerOrDigit(c) { InLettersOrDigits(c); }
    NoMark();
  }

  /** The names by their characters are those of the regular expression. */
  lemma {:induction false} LegalFormIsParts(s: string)
    ensures LegalForm(s) <==> Parts(s)
  {
    hide LETTERS, DIGITS, LowerOrDigit;
    forall c: char ensures c in LETTERS + DIGITS <==> LowerOrDigit(c) { InLettersOrDigits(c); }
    if Parts(s) && !Part(s) {
      hide LegalForm;
      var k :| 0 <= k < |s| && s[k] in "._" && Part(s[..k]) && Parts(s[k + 1..]);
      LegalFormIsParts(s[k + 1..]);
      JoinedIsLegal(s, k);
    }
    if LegalForm(s) && !Part(s) {
      var k := FirstMark(s);
      LegalIsJoined(s, k);
      LegalFormIsParts(s[k + 1..]);
    }
  }

  lemma FirstMark(s: string) returns (k: nat)
    requires LegalForm(s) && !Part(s)
    ensures k < |s| && s[k] in "._" && forall i | 0 <= i < k :: s[i] !in "._"
  {
    hide LETTERS, DIGITS, LowerOrDigit;
    forall c: char ensures c in LETTERS + DIGITS <==> LowerOrDigit(c) { InLettersOrDigits(c); }
    k := 0;
    while k < |s| && s[k] !in "._"
      invariant k <= |s| && forall i | 0 <= i < k :: s[i] !in "._"
    {
      k := k + 1;
    }
  }

  predicate NameTaken(t: Tables, name: string) {
    exists k | k in t.targets :: t.targets[k].name == name
  }

  predicate UrlTaken(t: Tables, url: string) {
    exists k | k in t.targets :: t.targets[k].url == url
  }

  predicate Busy(t: Tables, p: int) {
    exists j | j in t.jobs :: t.jobs[j].policy == p && Unfinished(t.jobs[j].status)
  }

  ghost predicate PoliciesFit(t: Tables) {
    && (forall p | Live(t, p) :: t.policies[p].project in t.projects && t.policies[p].target in t.targets)
    && (forall p, q | Live(t, p) && Live(t, q) && p != q ::
          !(t.policies[p].project == t.policies[q].project && t.policies[p].target == t.policies[q].target))
    && (forall p | p in t.policies :: t.policies[p].enabled in {0, 1})
  }

  ghost predicate TargetsDiffer(t: Tables) {
    forall a, b | a in t.targets && b in t.targets && a != b ::
      t.targets[a].name != t.targets[b].name && t.targets[a].url != t.targets[b].url
  }

  ghost predicate ProjectsDiffer(t: Tables) {
    forall a, b | a in t.projects && b in t.projects && a != b :: t.projects[a] != t.projects[b]
  }

  ghost predicate IdsBelow(t: Tables) {
    && (forall p | p in t.policies :: p < t.next)
    && (forall k | k in t.targets :: k < t.next)
    && (forall k | k in t.projects :: k < t.next)
  }

  ghost predicate Consistent(t: Tables) {
    PoliciesFit(t) && TargetsDiffer(t) && ProjectsDiffer(t) && IdsBelow(t)
  }

  /** The policy is live and enabled. */
  predicate Active(t: Tables, p: int) {
    Live(t, p) && t.policies[p].enabled == 1
  }

  /** The tables with one more policy, under the next id. */
  function WithPolicy(t: Tables, p: Policy): Tables {
    t.(policies := t.policies[t.next := p], next := t.next + 1)
  }

  /** Where a policy replicates to: target and endpoint. */
  function Destination(t: Tables, p: int): (int, string)
    requires p in t.policies
  {
    var k := t.policies[p].target;
    (k, if k in t.targets then t.targets[k].url else "")
  }

  /** No active policy that stays active changes its destination. */
  ghost predicate DestinationsKept(t: Tables, t': Tables) {
    forall p | Active(t, p) && Active(t', p) :: Destination(t', p) == Destination(t, p)
  }

  /** Both, for a step from one state of the tables to the next. */
  ghost predicate GoodStep(t: Tables, t': Tables) {
    Consistent(t') && DestinationsKept(t, t')
  }

  class Administration {
    var t: Tables

    method PostPolicy(project: int, target: int, enabled: int, partial: int) returns (reply: Reply, effect: Effect)
      requires Consistent(t)
      modifies this
      ensures GoodStep(old(t), t)
      ensures reply in {Done, Conflict} <==>
        enabled in {0, 1} && project in old(t).projects && target in old(t).targets
      ensures reply in {Done, Conflict} ==> (reply == Done <==> var was := old(t).policies;
        forall p | p in was && !was[p].deleted && was[p].project == project :: was[p].target != target)
      ensures reply != Done ==> t == old(t) && effect == Nothing
      ensures reply == Done ==> effect == (if enabled == 1 then Trigger(old(t).next) else Nothing)
      ensures reply == Done ==>
        (old(t).next !in old(t).policies
        && t == old(t).(policies := old(t).policies[old(t).next := Policy(project, target, enabled, partial, false)],
                        next := old(t).next + 1))
    {
      if enabled != 0 && enabled != 1 {
        return BadRequest, Nothing;
      }
      if project !in t.projects {
        return BadRequest, Nothing;
      }
      if target !in t.targets {
        return BadRequest, Nothing;
      }
      if Taken(t, project, target) {
        return Conflict, Nothing;
      }
      var id := t.next;
      t := WithPolicy(t, Policy(project, target, enabled, partial, false));
      return Done, if enabled == 1 then Trigger(id) else Nothing;
    }

    method PutPolicy(id: int, target: int, enabled: int) returns (reply: Reply, effect: Effect)
      requires Consistent(t)
      modifies this
      ensures GoodStep(old(t), t)
      ensures reply == NotFound <==> id !in old(t).policies
      ensures reply == Done <==>
        (id in old(t).policies && enabled in {0, 1} && var was := old(t).policies;
         target == was[id].target || (was[id].enabled != 1 && target in old(t).targets
           && forall p | p in was && !was[p].deleted && was[p].project == was[id].project :: was[p].target != target))
      ensures reply != Done ==> t == old(t) && effect == Nothing
      ensures reply == Done ==>
        t == old(t).(policies := old(t).policies[id := old(t).policies[id].(target := target, enabled := enabled)])
      ensures reply == Done ==>
        effect == if enabled == 1 && old(t).policies[id].enabled == 0 then Trigger(id) else Nothing
    {
      if id !in t.policies {
        return NotFound, Nothing;
      }
      var original := t.policies[id];
      if enabled != 0 && enabled != 1 {
        return BadRequest, Nothing;
      }
      if target != original.target {
        if original.enabled == 1 {
          return BadRequest, Nothing;
        }
        if target !in t.targets {
          return BadRequest, Nothing;
        }
        if Taken(t, original.project, target) {
          return Conflict, Nothing;
        }
      }
      t := t.(policies := t.policies[id := original.(target := target, enabled := enabled)]);
      return Done, if enabled != original.enabled && enabled == 1 then Trigger(id) else Nothing;
    }

    /** An id without a policy makes this handler dereference nil before it gets to its check. */
    method UpdateEnablement(id: int, enabled: int) returns (reply: Reply, effect: Effect)
      requires Consistent(t)
      modifies this
      ensures GoodStep(old(t), t)
      ensures reply == Panic <==> id !in old(t).policies
      ensures reply == Done <==> id in old(t).policies && old(t).policies[id].partial != 1 && enabled in {0, 1}
      ensures reply != Done ==> t == old(t) && effect == Nothing
      ensures reply == Done ==>
        t == old(t).(policies := old(t).policies[id := old(t).policies[id].(enabled := enabled)])
      ensures reply == Done ==>
        effect == (if enabled == old(t).policies[id].enabled then Nothing
                   else if enabled == 1 then Trigger(id) else Stop(id))
    {
      if id !in t.policies {
        return Panic, Nothing;
      }
      if t.policies[id].partial == 1 {
        return BadRequest, Nothing;
      }
      if enabled != 0 && enabled != 1 {
        return BadRequest, Nothing;
      }
      if t.policies[id].enabled == enabled {
        assert t.policies[id].(enabled := enabled) == t.policies[id];
        assert t.policies[id := t.policies[id]] == t.policies;
        return Done, Nothing;
      }
      t := t.(policies := t.policies[id := t.policies[id].(enabled := enabled)]);
      return Done, if enabled == 1 then Trigger(id) else Stop(id);
    }

    method DeletePolicy(id: int) returns (reply: Reply)
      requires Consistent(t)
      modifies this
      ensures GoodStep(old(t), t)
      ensures reply == NotFound <==> id !in old(t).policies || old(t).policies[id].deleted
      ensures reply == Done <==>
        (id in old(t).policies && var was := old(t).policies[id];
         !was.deleted && !(was.enabled == 1 && was.partial == 0)
         && forall j | j in old(t).jobs && old(t).jobs[j].policy == id ::
              old(t).jobs[j].status !in {Pending, Running, Retrying})
      ensures reply != Done ==> t == old(t)
      ensures reply == Done ==> t == old(t).(policies := old(t).policies[id := old(t).policies[id].(deleted := true)])
    {
      if id !in t.policies || t.policies[id].deleted {
        return NotFound;
      }
      if t.policies[id].enabled == 1 {
        if t.policies[id].partial == 0 {
          return PreconditionFailed;
        }
      }
      if Busy(t, id) {
        return PreconditionFailed;
      }
      t := t.(policies := t.policies[id := t.policies[id].(deleted := true)]);
      return Done;
    }

    /** Replicates some images once: through the partial policy of the project and target if there is
        one, else through a new one. `policy` is the one used. */
    method PartialReplication(project: int, target: int) returns (reply: Reply, policy: int)
      requires Consistent(t)
      modifies this
      ensures GoodStep(old(t), t)
      ensures reply == Done ==>
        Live(t, policy) && t.policies[policy].project == project && t.policies[policy].target == target
      ensures reply == Done ==> t == (if policy in old(t).policies then old(t)
        else WithPolicy(old(t), Policy(project, target, 1, 1, false)))
      ensures reply == Done ==> (policy in old(t).policies <==> var was := old(t).policies;
        exists p | p in was :: !was[p].deleted && was[p].project == project && was[p].target == target)
      ensures reply != Done ==> t == old(t)
      ensures reply == Done <==>
        (project in old(t).projects && target in old(t).targets && var was := old(t).policies;
         forall p | p in was && !was[p].deleted && was[p].project == project && was[p].target == target ::
           was[p].partial != 0)
    {
      policy := 0;
      if project !in t.projects {
        return BadRequest, 0;
      }
      if target !in t.targets {
        return BadRequest, 0;
      }
      if Taken(t, project, target) {
        policy :| policy in t.policies && Live(t, policy)
          && t.policies[policy].project == project && t.policies[policy].target == target;
        if t.policies[policy].partial == 0 {
          return Conflict, 0;
        }
        return Done, policy;
      }
      policy := t.next;
      t := WithPolicy(t, Policy(project, target, 1, 1, false));
      return Done, policy;
    }

    method PostTarget(name: string, url: string) returns (reply: Reply)
      requires Consistent(t)
      modifies this
      ensures GoodStep(old(t), t)
      ensures reply == Done <==> var was := old(t).targets;
        forall k | k in was :: was[k].name != name && was[k].url != url
      ensures reply != Done ==> t == old(t)
      ensures reply == Done ==> old(t).next !in old(t).targets
      ensures reply == Done ==>
        t == old(t).(targets := old(t).targets[old(t).next := Target(name, url)], next := old(t).next + 1)
    {
      if NameTaken(t, name) {
        return Conflict;
      }
      if UrlTaken(t, url) {
        return Conflict;
      }
      t := t.(targets := t.targets[t.next := Target(name, url)], next := t.next + 1);
      return Done;
    }

    method PutTarget(id: int, name: string, url: string) returns (reply: Reply)
      requires Consistent(t)
      modifies this
      ensures GoodStep(old(t), t)
      ensures reply == Done <==>
        (id in old(t).targets && var was, policies := old(t).targets, old(t).policies;
         (forall p | p in policies && !policies[p].deleted && policies[p].enabled == 1 :: policies[p].target != id)
         && forall k | k in was && k != id :: was[k].name != name && was[k].url != url)
      ensures reply != Done ==> t == old(t)
      ensures reply == Done ==> t == old(t).(targets := old(t).targets[id := Target(name, url)])
    {
      if id !in t.targets {
        return NotFound;
      }
      if exists p | p in t.policies :: Active(t, p) && t.policies[p].target == id {
        return BadRequest;
      }
      if name != t.targets[id].name && NameTaken(t, name) {
        return Conflict;
      }
      if url != t.targets[id].url && UrlTaken(t, url) {
        return Conflict;
      }
      t := t.(targets := t.targets[id := Target(name, url)]);
      return Done;
    }

    method DeleteTarget(id: int) returns (reply: Reply)
      requires Consistent(t)
      modifies this
      ensures GoodStep(old(t), t)
      ensures reply == Done <==> (id in old(t).targets && var was := old(t).policies;
        forall p | p in was && !was[p].deleted :: was[p].target != id)
      ensures t == if reply == Done then old(t).(targets := old(t).targets - {id}) else old(t)
    {
      if id !in t.targets {
        return NotFound;
      }
      if Used(t, id) {
        return BadRequest;
      }
      t := t.(targets := t.targets - {id});
      return Done;
    }

    method PostProject(name: string) returns (reply: Reply)
      requires Consistent(t)
      modifies this
      ensures GoodStep(old(t), t)
      ensures reply == BadRequest <==> !(4 <= |name| <= 100 && Parts(name))
      ensures reply == Done <==>
        4 <= |name| <= 100 && Parts(name) && forall k | k in old(t).projects :: old(t).projects[k] != name
      ensures reply != Done ==> t == old(t)
      ensures reply == Done ==> old(t).next !in old(t).projects
      ensures reply == Done ==>
        t == old(t).(projects := old(t).projects[old(t).next := name], next := old(t).next + 1)
    {
      hide LegalForm, Parts;
      LegalFormIsParts(name);
      if !LegalName(name) {
        return BadRequest;
      }
      if ProjectTaken(t, name) {
        return Conflict;
      }
      t := t.(projects := t.projects[t.next := name], next := t.next + 1);
      return Done;
    }

    /** `containsRepository` is whether the table of repositories has one of the project. */
    method DeleteProject(id: int, containsRepository: bool) returns (reply: Reply)
      requires Consistent(t)
      modifies this
      ensures GoodStep(old(t), t)
      ensures reply == Done <==>
        (id in old(t).projects && !containsRepository && var was := old(t).policies;
         forall p | p in was && !was[p].deleted :: was[p].project != id)
      ensures t == if reply == Done then old(t).(projects := old(t).projects - {id}) else old(t)
    {
      if id !in t.projects {
        return NotFound;
      }
      if containsRepository {
        return PreconditionFailed;
      }
      if exists p | p in t.policies :: Live(t, p) && t.policies[p].project == id {
        return PreconditionFailed;
      }
      t := t.(projects := t.projects - {id});
      return Done;
    }

    /** Any sequence of requests keeps the tables consistent, and every request keeps the destination
        of the policies that are active before and after it. */
    method Serve(requests: seq<Request>) returns (ghost history: seq<Tables>)
      requires Consistent(t)
      modifies this
      ensures |history| == |requests| + 1 && history[0] == old(t) && history[|requests|] == t
      ensures forall i | 0 <= i < |requests| :: GoodStep(history[i], history[i + 1])
    {
      hide Consistent, DestinationsKept;
      history := [t];
      for i := 0 to |requests|
        invariant Consistent(t) && |history| == i + 1 && history[0] == old(t) && history[i] == t
        invariant forall k | 0 <= k < i :: GoodStep(history[k], history[k + 1])
      {
        match requests[i] {
          case AddPolicy(project, target, enabled, partial) =>
            var _, _ := PostPolicy(project, target, enabled, partial);
          case ChangePolicy(id, target, enabled) => var _, _ := PutPolicy(id, target, enabled);
          case Enable(id, enabled) => var _, _ := UpdateEnablement(id, enabled);
          case RemovePolicy(id) => var _ := DeletePolicy(id);
          case ReplicateOnce(project, target) => var _, _ := PartialReplication(project, target);
          case AddTarget(name, url) => var _ := PostTarget(name, url);
          case ChangeTarget(id, name, url) => var _ := PutTarget(id, name, url);
          case RemoveTarget(id) => var _ := DeleteTarget(id);
          case AddProject(name) => var _ := PostProject(name);
          case RemoveProject(id, containsRepository) => var _ := DeleteProject(id, containsRepository);
        }
        history := history + [t];
      }
    }
  }

  datatype Request =
    | AddPolicy(project: int, target: int, enabled: int, partial: int)
    | ChangePolicy(id: int, target: int, enabled: int)
    | Enable(id: int, enabled: int)
    | RemovePolicy(id: int)
    | ReplicateOnce(project: int, target: int)
    | AddTarget(name: string, url: string)
    | ChangeTarget(id: int, name: string, url: string)
    | RemoveTarget(id: int)
    | AddProject(name: string)
    | RemoveProject(id: int, containsRepository: bool)

  /** Over a whole history, a policy that is active all the time replicates to one destination. */
  lemma {:induction false} DestinationIsFixed(history: seq<Tables>, a: nat, b: nat, p: int)
    requires a <= b < |history| && forall i | a <= i < b :: GoodStep(history[i], history[i + 1])
    requires forall i | a <= i <= b :: Active(history[i], p)
    ensures Active(history[a], p) && Active(history[b], p) && Destination(history[b], p) == Destination(history[a], p)
  {
    if a < b {
      DestinationIsFixed(history, a, b - 1, p);
      assert GoodStep(history[b - 1], history[b - 1 + 1]) && Active(history[b - 1], p) && Active(history[b], p);
    }
  }

  /** The guard of PutTarget is the right one: changing a target keeps the destinations exactly if its
      endpoint stays the same or no active policy uses it. */
  lemma GuardIsExact(t: Tables, id: int, name: string, url: string)
    requires id in t.targets
    ensures DestinationsKept(t, t.(targets := t.targets[id := Target(name, url)])) <==>
      url == t.targets[id].url || forall p | Active(t, p) :: t.policies[p].target != id
  {
    var t' := t.(targets := t.targets[id := Target(name, url)]);
    forall p | Active(t, p)
      ensures Active(t', p)
      ensures Destination(t', p) == Destination(t, p) <==> url == t.targets[id].url || t.policies[p].target != id {}
  }

  /** A policy is busy exactly if one of its jobs is not over. */
  lemma BusyMeans(t: Tables, p: int)
    requires forall j | j in t.jobs :: t.jobs[j].status in STATUSES
    ensures !Busy(t, p) <==> forall j | j in t.jobs && t.jobs[j].policy == p :: Terminal(t.jobs[j].status)
  {
    hide Unfinished, Terminal, STATUSES;
    forall j | j in t.jobs ensures Unfinished(t.jobs[j].status) <==> !Terminal(t.jobs[j].status) {
      UnfinishedOrTerminal(t.jobs[j].status);
    }
  }
}
