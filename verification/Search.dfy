/** The search over repositories: a merge join of sorted names, against the nested-loop join it
    stands for. */
module Search {
  import opened Strings

  datatype Project = Project(id: int, name: string, isPublic: int)

  datatype Entry = Entry(repository: string, project: string, id: int, isPublic: int)

  function EntryOf(r: string, p: Project): Entry {
    Entry(r, p.name, p.id, p.isPublic)
  }

  predicate Matches(r: string, keyword: string) {
    keyword == "" || Contains(r, keyword)
  }

  /** By name, and no name twice. */
  predicate Ordered(projects: seq<Project>) {
    forall i, k | 0 <= i < k < |projects| :: Less(projects[i].name, projects[k].name)
  }

  /** The pairs of repository `r` with the projects it belongs to. */
  function Own(r: string, projects: seq<Project>): seq<Entry> {
    if projects == [] then []
    else (if Component(r) == projects[0].name then [EntryOf(r, projects[0])] else []) + Own(r, projects[1..])
  }

  /** What the search means: every matching one of the first `n` repositories with its own project,
      in order. */
  function NestedJoin(repositories: seq<string>, projects: seq<Project>, keyword: string, n: nat): seq<Entry>
    requires n <= |repositories|
  {
    if n == 0 then [] else
    var r := repositories[n - 1];
    NestedJoin(repositories, projects, keyword, n - 1) + (if Matches(r, keyword) then Own(r, projects) else [])
  }

  /** No earlier repository belongs to a project with a greater name. */
  predicate InStep(repositories: seq<string>, i: nat)
    requires i < |repositories|
  {
    forall k | 0 <= k < i :: Leq(Component(repositories[k]), Component(repositories[i]))
  }

  /** What the merge finds: the nested join without the repositories that are out of step. */
  function InStepJoin(repositories: seq<string>, projects: seq<Project>, keyword: string, n: nat): seq<Entry>
    requires n <= |repositories|
  {
    if n == 0 then [] else
    var r := repositories[n - 1];
    InStepJoin(repositories, projects, keyword, n - 1)
      + (if Matches(r, keyword) && InStep(repositories, n - 1) then Own(r, projects) else [])
  }

  lemma {:induction false} OwnIsOne(r: string, projects: seq<Project>, m: nat)
    requires Ordered(projects) && m < |projects| && Component(r) == projects[m].name
    ensures Own(r, projects) == [EntryOf(r, projects[m])]
  {
    if m == 0 {
      forall k | 0 < k < |projects| ensures Component(r) != projects[k].name {}
      OwnIsNone(r, projects[1..]);
    } else {
      assert Less(projects[0].name, projects[m].name);
      OwnIsOne(r, projects[1..], m - 1);
    }
  }

  lemma {:induction false} OwnIsNone(r: string, projects: seq<Project>)
    requires forall k | 0 <= k < |projects| :: Component(r) != projects[k].name
    ensures Own(r, projects) == []
  {
    if projects != [] { OwnIsNone(r, projects[1..]); }
  }

  /** Some repository up to `i` belongs to a project with a greater name. */
  predicate Behind(repositories: seq<string>, i: nat, name: string) {
    exists k {:trigger repositories[k]} | 0 <= k <= i && k < |repositories| :: Less(name, Component(repositories[k]))
  }

  /** The merge stands at repository `i` and project `j`. */
  ghost predicate Merged(repositories: seq<string>, projects: seq<Project>, keyword: string,
    i: nat, j: nat, result: seq<Entry>) {
    && i <= |repositories| && j <= |projects|
    && result == InStepJoin(repositories, projects, keyword, i)
    && (forall m | 0 <= m < j :: Behind(repositories, i, projects[m].name))
    && (j < |projects| ==> forall k | 0 <= k < i :: Leq(Component(repositories[k]), projects[j].name))
  }

  /** A repository that is in step does not belong to a project left behind. */
  lemma BehindIsNotOwn(repositories: seq<string>, i: nat, n: nat, name: string)
    requires i <= n < |repositories| && InStep(repositories, n) && Behind(repositories, i, name)
    ensures Component(repositories[n]) != name
  {
    hide Leq, Component;
    var k :| 0 <= k <= i && k < |repositories| && Less(name, Component(repositories[k]));
    LeqSame(Component(repositories[n]));
    LessThenLeq(name, Component(repositories[k]), Component(repositories[n]));
  }

  lemma LaterIsNotOwn(name: string, projects: seq<Project>, j: nat, m: nat)
    requires Ordered(projects) && j <= m < |projects| && Less(name, projects[j].name)
    ensures name != projects[m].name
  {
    hide Leq;
    if m > j { LessThenLeq(name, projects[j].name, projects[m].name); }
  }

  /** The repository comes before project `j`: it has no project, or is out of step. */
  lemma NothingFound(repositories: seq<string>, projects: seq<Project>, i: nat, n: nat, j: nat)
    requires i <= n < |repositories| && j <= |projects| && Ordered(projects) && InStep(repositories, n)
    requires forall m | 0 <= m < j :: Behind(repositories, i, projects[m].name)
    requires j < |projects| ==> Less(Component(repositories[n]), projects[j].name)
    ensures Own(repositories[n], projects) == []
  {
    hide Less, Component, InStep, Behind, Ordered, Own;
    forall m | 0 <= m < |projects| ensures Component(repositories[n]) != projects[m].name {
      if m < j {
        BehindIsNotOwn(repositories, i, n, projects[m].name);
      } else {
        LaterIsNotOwn(Component(repositories[n]), projects, j, m);
      }
    }
    OwnIsNone(repositories[n], projects);
  }

  lemma BehindStays(repositories: seq<string>, projects: seq<Project>, i: nat, j: nat)
    requires j <= |projects| && forall m | 0 <= m < j :: Behind(repositories, i, projects[m].name)
    ensures forall m | 0 <= m < j :: Behind(repositories, i + 1, projects[m].name)
  {
    hide Leq, Component;
    forall m | 0 <= m < j ensures Behind(repositories, i + 1, projects[m].name) {
      var k :| 0 <= k <= i && k < |repositories| && Less(projects[m].name, Component(repositories[k]));
      assert repositories[k] == repositories[k];
    }
  }

  lemma SkipRepository(repositories: seq<string>, projects: seq<Project>, keyword: string,
    i: nat, j: nat, result: seq<Entry>)
    requires Ordered(projects) && Merged(repositories, projects, keyword, i, j, result)
    requires i < |repositories| && j < |projects| && Less(Component(repositories[i]), projects[j].name)
    ensures Merged(repositories, projects, keyword, i + 1, j, result)
  {
    hide Leq, Component, Behind, Own, Matches, InStep;
    if InStep(repositories, i) { NothingFound(repositories, projects, i, i, j); }
    BehindStays(repositories, projects, i, j);
  }

  lemma TakeRepository(repositories: seq<string>, projects: seq<Project>, keyword: string,
    i: nat, j: nat, result: seq<Entry>)
    requires Ordered(projects) && Merged(repositories, projects, keyword, i, j, result)
    requires i < |repositories| && j < |projects| && Component(repositories[i]) == projects[j].name
    ensures Merged(repositories, projects, keyword, i + 1, j,
              result + if Matches(repositories[i], keyword) then [EntryOf(repositories[i], projects[j])] else [])
  {
    hide Leq, Component, Behind, Own, Matches;
    assert InStep(repositories, i);
    OwnIsOne(repositories[i], projects, j);
    BehindStays(repositories, projects, i, j);
    LeqSame(projects[j].name);
  }

  lemma SkipProject(repositories: seq<string>, projects: seq<Project>, keyword: string,
    i: nat, j: nat, result: seq<Entry>)
    requires Ordered(projects) && Merged(repositories, projects, keyword, i, j, result)
    requires i < |repositories| && j < |projects| && Less(projects[j].name, Component(repositories[i]))
    ensures Merged(repositories, projects, keyword, i, j + 1, result)
  {
    hide Leq, Component, Own, Matches, InStepJoin;
    assert Behind(repositories, i, projects[j].name);
    if j + 1 < |projects| {
      forall k | 0 <= k < i ensures Leq(Component(repositories[k]), projects[j + 1].name) {
        LeqThenLess(Component(repositories[k]), projects[j].name, projects[j + 1].name);
      }
    }
  }

  /** With no project left, no later repository adds anything. */
  lemma {:induction false} RestIsEmpty(repositories: seq<string>, projects: seq<Project>, keyword: string,
                                       i: nat, n: nat, result: seq<Entry>)
    requires Ordered(projects) && Merged(repositories, projects, keyword, i, |projects|, result)
    requires i <= n <= |repositories|
    ensures InStepJoin(repositories, projects, keyword, n) == result
  {
    hide Leq, Component, Behind, Own, Matches, InStep;
    if i < n {
      RestIsEmpty(repositories, projects, keyword, i, n - 1, result);
      if InStep(repositories, n - 1) { NothingFound(repositories, projects, i, n - 1, |projects|); }
    }
  }

  lemma MergeStarts(repositories: seq<string>, projects: seq<Project>, keyword: string)
    ensures Merged(repositories, projects, keyword, 0, 0, [])
  {
  }

  lemma MergedAll(repositories: seq<string>, projects: seq<Project>, keyword: string, j: nat, result: seq<Entry>)
    requires Merged(repositories, projects, keyword, |repositories|, j, result)
    ensures result == InStepJoin(repositories, projects, keyword, |repositories|)
  {
  }

  /** A pair the search may return. */
  predicate Right(e: Entry, repositories: seq<string>, projects: seq<Project>, keyword: string) {
    && e.repository in repositories && Matches(e.repository, keyword)
    && exists p | p in projects :: e == EntryOf(e.repository, p) && Component(e.repository) == p.name
  }

  lemma ItIsRight(r: string, p: Project, repositories: seq<string>, projects: seq<Project>, keyword: string)
    requires r in repositories && p in projects && Component(r) == p.name && Matches(r, keyword)
    ensures Right(EntryOf(r, p), repositories, projects, keyword)
  {
  }

  /** The repository has the keyword somewhere in it. */
  ghost predicate Inside(keyword: string, r: string) {
    exists a, b :: r == a + keyword + b
  }

  lemma MatchesIs(r: string, keyword: string)
    ensures Matches(r, keyword) <==> Inside(keyword, r)
  {
    hide Contains;
    ContainsIs(r, keyword);
    if keyword == "" { assert r == "" + keyword + r; }
  }

  /** A pair is right exactly if its repository is one of those given and has the keyword in it, and the rest
      is that of the project it belongs to. */
  lemma RightIs(e: Entry, repositories: seq<string>, projects: seq<Project>, keyword: string)
    ensures Right(e, repositories, projects, keyword) <==>
      && e.repository in repositories && Inside(keyword, e.repository) && e.project == Component(e.repository)
      && Project(e.id, e.project, e.isPublic) in projects
  {
    hide Matches, Inside, Component;
    MatchesIs(e.repository, keyword);
    if p :| p in projects && e == EntryOf(e.repository, p) {
      assert p == Project(e.id, e.project, e.isPublic);
    }
    if Project(e.id, e.project, e.isPublic) in projects {
      assert e == EntryOf(e.repository, Project(e.id, e.project, e.isPublic));
    }
  }

  /** With the projects in order, every repository in step that has the keyword in it is found with its
      project. */
  lemma {:induction false} InStepIsFound(repositories: seq<string>, projects: seq<Project>, keyword: string, n: nat,
                                         i: nat, m: nat)
    requires Ordered(projects) && i < n <= |repositories| && m < |projects|
    requires InStep(repositories, i) && Inside(keyword, repositories[i])
    requires Component(repositories[i]) == projects[m].name
    ensures var p := projects[m];
      Entry(repositories[i], p.name, p.id, p.isPublic) in InStepJoin(repositories, projects, keyword, n)
  {
    hide Matches, Inside, InStep, Own, Component, Ordered;
    if i < n - 1 {
      InStepIsFound(repositories, projects, keyword, n - 1, i, m);
    } else {
      MatchesIs(repositories[i], keyword);
      OwnIsOne(repositories[i], projects, m);
    }
  }

  /** Whatever the order of its arguments, the search returns only right pairs; with the projects in
      order it returns exactly the matching repositories that are in step. */
  method FilterRepositories(repositories: seq<string>, projects: seq<Project>, keyword: string)
    returns (result: seq<Entry>)
    ensures forall e | e in result ::
      && e.repository in repositories && Inside(keyword, e.repository) && e.project == Component(e.repository)
      && Project(e.id, e.project, e.isPublic) in projects
    ensures Ordered(projects) ==> result == InStepJoin(repositories, projects, keyword, |repositories|)
    ensures Ordered(projects) ==> forall i, m | 0 <= i < |repositories| && 0 <= m < |projects| ::
      InStep(repositories, i) && Inside(keyword, repositories[i]) && Component(repositories[i]) == projects[m].name ==>
        Entry(repositories[i], projects[m].name, projects[m].id, projects[m].isPublic) in result
  {
    hide Leq, Component, Behind, Own, InStepJoin, Contains, Ordered, Merged, Matches, Right, Inside, InStep;
    MergeStarts(repositories, projects, keyword);
    var i, j := 0, 0;
    result := [];
    while i < |repositories| && j < |projects|
      invariant i <= |repositories| && j <= |projects|
      invariant forall e | e in result :: Right(e, repositories, projects, keyword)
      invariant Ordered(projects) ==> Merged(repositories, projects, keyword, i, j, result)
      decreases |repositories| - i + |projects| - j
    {
      var r, p := repositories[i], projects[j];
      var d := Compare(Component(r), p.name);
      LessOrGreater(p.name, Component(r));
      if d < 0 {
        if Ordered(projects) { SkipRepository(repositories, projects, keyword, i, j, result); }
        i := i + 1;
      } else if d == 0 {
        if Ordered(projects) { TakeRepository(repositories, projects, keyword, i, j, result); }
        i := i + 1;
        if !Matches(r, keyword) {
          assert result + [] == result;
          continue;
        }
        ItIsRight(r, p, repositories, projects, keyword);
        result := result + [EntryOf(r, p)];
      } else {
        if Ordered(projects) { SkipProject(repositories, projects, keyword, i, j, result); }
        j := j + 1;
      }
    }
    if Ordered(projects) {
      if i < |repositories| {
        RestIsEmpty(repositories, projects, keyword, i, |repositories|, result);
      } else {
        MergedAll(repositories, projects, keyword, j, result);
      }
      forall i, m | 0 <= i < |repositories| && 0 <= m < |projects| && InStep(repositories, i)
          && Inside(keyword, repositories[i]) && Component(repositories[i]) == projects[m].name
        ensures Entry(repositories[i], projects[m].name, projects[m].id, projects[m].isPublic) in result
      {
        InStepIsFound(repositories, projects, keyword, |repositories|, i, m);
      }
    }
    forall e | e in result { RightIs(e, repositories, projects, keyword); }
  }

  /** The search would be the nested join if no repository it should return is out of step. */
  predicate NoneOutOfStep(repositories: seq<string>, projects: seq<Project>, keyword: string, n: nat)
    requires n <= |repositories|
  {
    forall i | 0 <= i < n && Matches(repositories[i], keyword) && Own(repositories[i], projects) != [] ::
      InStep(repositories, i)
  }

  lemma {:induction false} JoinsDiffer(repositories: seq<string>, projects: seq<Project>, keyword: string, n: nat)
    requires n <= |repositories|
    ensures var all := NestedJoin(repositories, projects, keyword, n);
      var found := InStepJoin(repositories, projects, keyword, n);
      |found| <= |all| && (NoneOutOfStep(repositories, projects, keyword, n) ==> found == all)
      && (!NoneOutOfStep(repositories, projects, keyword, n) ==> |found| < |all|)
  {
    hide Matches, Own, InStep;
    if n > 0 {
      JoinsDiffer(repositories, projects, keyword, n - 1);
      var r := repositories[n - 1];
      assert NoneOutOfStep(repositories, projects, keyword, n)
        <==> (NoneOutOfStep(repositories, projects, keyword, n - 1)
          && (Matches(r, keyword) && Own(r, projects) != [] ==> InStep(repositories, n - 1)));
    }
  }

  /** With the projects in order, the merge is the nested-loop join exactly if no matching repository
      with a project comes after one whose project part is greater. */
  lemma MergeIsJoin(repositories: seq<string>, projects: seq<Project>, keyword: string)
    ensures InStepJoin(repositories, projects, keyword, |repositories|)
      == NestedJoin(repositories, projects, keyword, |repositories|)
      <==> NoneOutOfStep(repositories, projects, keyword, |repositories|)
  {
    JoinsDiffer(repositories, projects, keyword, |repositories|);
  }

  /** Every character comes after the slash. */
  predicate AboveSlash(s: string) {
    forall i | 0 <= i < |s| :: s[i] > '/'
  }

  /** A name without a leading slash starts with its project part and a slash, if it has one. */
  lemma ComponentIsPrefix(r: string)
    requires r == "" || r[0] != '/'
    requires Component(r) != ""
    ensures Component(r) + "/" <= r
  {
    hide TrimLeft, TrimRight, LastIndex;
    var s := Trim(r, "/");
    assert '/' in "/" && TrimLeft(r, "/") == r;
    var i := LastIndex(s, '/');
    assert s[..i + 1] == s[..i] + [s[i]];
  }

  lemma {:induction false} OrderOfPrefixes(p: string, q: string, a: string, b: string)
    requires p + "/" <= a && q + "/" <= b && AboveSlash(p) && AboveSlash(q) && Leq(a, b)
    ensures Leq(p, q)
  {
    if p != [] {
      assert a[0] == (p + "/")[0] == p[0] && b[0] == (q + "/")[0];
      if q != [] && p[0] == q[0] {
        assert (p + "/")[1..] == p[1..] + "/" && (q + "/")[1..] == q[1..] + "/";
        OrderOfPrefixes(p[1..], q[1..], a[1..], b[1..]);
      }
    }
  }

  /** Repository names in order, none with a leading slash, and only characters above the slash in
      their project parts: then the search returns the nested join. */
  lemma SearchIsComplete(repositories: seq<string>, projects: seq<Project>, keyword: string)
    requires Sorted(repositories)
    requires forall i | 0 <= i < |repositories| ::
      (repositories[i] == "" || repositories[i][0] != '/') && AboveSlash(Component(repositories[i]))
    requires forall m | 0 <= m < |projects| :: projects[m].name != ""
    ensures InStepJoin(repositories, projects, keyword, |repositories|)
      == NestedJoin(repositories, projects, keyword, |repositories|)
  {
    hide Component, Leq, Matches;
    MergeIsJoin(repositories, projects, keyword);
    forall i | 0 <= i < |repositories| && Own(repositories[i], projects) != [] ensures InStep(repositories, i) {
      var c := Component(repositories[i]);
      if c == "" { OwnIsNone(repositories[i], projects); }
      ComponentIsPrefix(repositories[i]);
      forall k | 0 <= k < i ensures Leq(Component(repositories[k]), c) {
        if Component(repositories[k]) == "" {
          EmptyIsFirst(c);
        } else {
          ComponentIsPrefix(repositories[k]);
          OrderOfPrefixes(Component(repositories[k]), c, repositories[k], repositories[i]);
        }
      }
    }
  }

  lemma EmptyIsFirst(s: string)
    ensures Leq("", s)
  {
  }

  /** A dash sorts below the slash: repositories in order need not be in the order of their projects,
      and the search loses one. */
  lemma SearchLosesOne()
    ensures var repositories, projects := ["a-b/x", "a/x"], [Project(1, "a", 1), Project(2, "a-b", 1)];
      && Sorted(repositories) && Ordered(projects)
      && NestedJoin(repositories, projects, "", 2) == [EntryOf("a-b/x", projects[1]), EntryOf("a/x", projects[0])]
      && InStepJoin(repositories, projects, "", 2) == [EntryOf("a-b/x", projects[1])]
  {
    hide Component, Own, InStep;
    var repositories, projects := ["a-b/x", "a/x"], [Project(1, "a", 1), Project(2, "a-b", 1)];
    assert Ordered(projects) by { assert Less("a", "a-b"); }
    TheTwoComponents();
    OwnIsOne("a-b/x", projects, 1);
    OwnIsOne("a/x", projects, 0);
    DashIsOutOfStep(repositories);
    hide Leq, Sorted, Ordered;
    var first, second := EntryOf("a-b/x", projects[1]), EntryOf("a/x", projects[0]);
    assert NestedJoin(repositories, projects, "", 1) == NestedJoin(repositories, projects, "", 0) + [first];
    assert InStepJoin(repositories, projects, "", 1) == InStepJoin(repositories, projects, "", 0) + [first];
    assert NestedJoin(repositories, projects, "", 2) == NestedJoin(repositories, projects, "", 1) + [second];
    assert InStepJoin(repositories, projects, "", 2) == InStepJoin(repositories, projects, "", 1) + [];
  }

  lemma TheTwoComponents()
    ensures Component("a-b/x") == "a-b" && Component("a/x") == "a"
  {
    hide Component;
    ComponentOfTwo("a-b", "x");
    ComponentOfTwo("a", "x");
    assert "a-b" + "/" + "x" == "a-b/x" && "a" + "/" + "x" == "a/x";
  }

  lemma DashIsOutOfStep(repositories: seq<string>)
    requires repositories == ["a-b/x", "a/x"]
    ensures InStep(repositories, 0) && !InStep(repositories, 1) && Sorted(repositories)
  {
    hide Component;
    TheTwoComponents();
    assert !Leq("a-b", "a");
    assert !Leq(Component(repositories[0]), Component(repositories[1]));
    assert "a-b/x"[1..] == "-b/x" && "a/x"[1..] == "/x";
    assert Leq("-b/x", "/x");
    assert Leq("a-b/x", "a/x");
  }
}
