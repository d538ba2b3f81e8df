/** Bringing the table of repositories in line with the registry: the two-pointer difference of two
    name lists, and what one and two rounds of it do to the table. */
module SyncRegistry {
  import opened Strings

  /** What a look-up in the project table or at the registry says. */
  datatype Answer = Yes | No | Failed

  type Lookup = string -> Answer

  /** A name is due to be added. Only a name that some name of the table sorts after has to have a tag. */
  predicate Addable(x: string, db: seq<string>, project: Lookup, tagged: Lookup) {
    project(Component(x)) == Yes && (Followed(x, db) ==> tagged(x) == Yes)
  }

  predicate Followed(x: string, db: seq<string>) {
    exists y | y in db :: Less(x, y)
  }

  /** The look-up of tags is made and fails. */
  predicate Breaks(x: string, db: seq<string>, project: Lookup, tagged: Lookup) {
    project(Component(x)) == Yes && Followed(x, db) && tagged(x) == Failed
  }

  /** What the first `i` names of one list have more than the first `j` of the other. */
  ghost function Extra(r: seq<string>, d: seq<string>, i: nat, j: nat): multiset<string>
    requires i <= |r| && j <= |d|
  {
    multiset(r[..i]) - multiset(d[..j])
  }

  /** The merge stands at `i` and `j`: what lies ahead in one list has met its equals, as far as there
      were any, in the other. */
  ghost predicate Abreast(r: seq<string>, d: seq<string>, i: nat, j: nat) {
    && i <= |r| && j <= |d|
    && (forall a | i <= a < |r| :: multiset(d[..j])[r[a]] <= multiset(r[..i])[r[a]])
    && (forall b | j <= b < |d| :: multiset(r[..i])[d[b]] <= multiset(d[..j])[d[b]])
    && (forall a, b | i <= a < |r| && 0 <= b < j :: Leq(d[b], r[a]))
  }

  lemma TakeOne(s: seq<string>, i: nat)
    requires i < |s|
    ensures multiset(s[..i + 1]) == multiset(s[..i]) + multiset{s[i]}
  {
    assert s[..i + 1] == s[..i] + [s[i]];
  }

  lemma SortedFrom(s: seq<string>, i: nat, k: nat)
    requires Sorted(s) && i <= k < |s|
    ensures Leq(s[i], s[k])
  {
    LeqSame(s[i]);
  }

  lemma LessDiffers(a: string, b: string, c: string)
    requires Less(a, b) && Leq(b, c)
    ensures a != c && Leq(a, c)
  {
    LessThenLeq(a, b, c);
  }

  lemma OneMore(a: multiset<string>, b: multiset<string>, x: string)
    requires b[x] <= a[x]
    ensures (a + multiset{x}) - b == (a - b) + multiset{x} && b - (a + multiset{x}) == b - a
  {
  }

  lemma OneMoreInBoth(a: multiset<string>, b: multiset<string>, x: string)
    ensures (a + multiset{x}) - (b + multiset{x}) == a - b
  {
  }

  lemma StepLeft(r: seq<string>, d: seq<string>, i: nat, j: nat)
    requires Sorted(d) && Abreast(r, d, i, j) && i < |r| && (j < |d| ==> Less(r[i], d[j]))
    ensures Abreast(r, d, i + 1, j) && Extra(r, d, i + 1, j) == Extra(r, d, i, j) + multiset{r[i]}
    ensures Extra(d, r, j, i + 1) == Extra(d, r, j, i)
  {
    hide Leq, Less, Sorted;
    TakeOne(r, i);
    OneMore(multiset(r[..i]), multiset(d[..j]), r[i]);
    forall b | j <= b < |d| ensures r[i] != d[b] { SortedFrom(d, j, b); LessDiffers(r[i], d[j], d[b]); }
  }

  lemma StepRight(r: seq<string>, d: seq<string>, i: nat, j: nat)
    requires Sorted(r) && Abreast(r, d, i, j) && j < |d| && (i < |r| ==> Less(d[j], r[i]))
    ensures Abreast(r, d, i, j + 1) && Extra(r, d, i, j + 1) == Extra(r, d, i, j)
    ensures Extra(d, r, j + 1, i) == Extra(d, r, j, i) + multiset{d[j]}
  {
    hide Leq, Less, Sorted;
    TakeOne(d, j);
    OneMore(multiset(d[..j]), multiset(r[..i]), d[j]);
    forall a | i <= a < |r| ensures d[j] != r[a] && Leq(d[j], r[a]) {
      SortedFrom(r, i, a);
      LessDiffers(d[j], r[i], r[a]);
    }
  }

  lemma ExtraBoth(r: seq<string>, d: seq<string>, i: nat, j: nat)
    requires i < |r| && j < |d| && r[i] == d[j]
    ensures Extra(r, d, i + 1, j + 1) == Extra(r, d, i, j)
  {
    TakeOne(r, i);
    TakeOne(d, j);
    OneMoreInBoth(multiset(r[..i]), multiset(d[..j]), r[i]);
  }

  lemma StepBoth(r: seq<string>, d: seq<string>, i: nat, j: nat)
    requires Sorted(r) && Abreast(r, d, i, j) && i < |r| && j < |d| && r[i] == d[j]
    ensures Abreast(r, d, i + 1, j + 1) && Extra(r, d, i + 1, j + 1) == Extra(r, d, i, j)
    ensures Extra(d, r, j + 1, i + 1) == Extra(d, r, j, i)
  {
    hide Leq, Less, Sorted, Extra;
    TakeOne(r, i);
    TakeOne(d, j);
    ExtraBoth(r, d, i, j);
    ExtraBoth(d, r, j, i);
    forall a | i <= a < |r| ensures Leq(d[j], r[a]) { SortedFrom(r, i, a); }
  }

  /** What is extra and due: nothing that breaks, and the names to add, each as often as it is extra. */
  ghost predicate Collected(extra: multiset<string>, add: seq<string>, db: seq<string>, project: Lookup,
                            tagged: Lookup)
  {
    && (forall x | x in extra :: !Breaks(x, db, project, tagged))
    && forall x :: multiset(add)[x] == if Addable(x, db, project, tagged) then extra[x] else 0
  }

  lemma CollectOne(extra: multiset<string>, add: seq<string>, db: seq<string>, project: Lookup, tagged: Lookup,
                   x: string)
    requires Collected(extra, add, db, project, tagged) && !Breaks(x, db, project, tagged)
    ensures Collected(extra + multiset{x}, if Addable(x, db, project, tagged) then add + [x] else add, db,
                      project, tagged)
  {
    hide Addable, Breaks;
  }

  lemma FollowedBy(x: string, d: seq<string>, j: nat)
    requires j < |d| && Less(x, d[j])
    ensures Followed(x, d)
  {
  }

  lemma LastIsNotFollowed(r: seq<string>, d: seq<string>, i: nat)
    requires Abreast(r, d, i, |d|) && i < |r|
    ensures !Followed(r[i], d)
  {
    if Followed(r[i], d) {
      var y :| y in d && Less(r[i], y);
      var b :| 0 <= b < |d| && d[b] == y;
      LessOrGreater(d[b], r[i]);
    }
  }

  lemma SameNames(r: seq<string>, d: seq<string>, db: seq<string>, add: seq<string>, project: Lookup, tagged: Lookup)
    requires multiset(d) == multiset(db)
    ensures Collected(multiset(r) - multiset(d), add, d, project, tagged)
      ==> Collected(multiset(r) - multiset(db), add, db, project, tagged)
    ensures forall x :: Breaks(x, d, project, tagged) ==> Breaks(x, db, project, tagged)
  {
    assert forall y :: y in d <==> y in multiset(d);
    assert forall y :: y in db <==> y in multiset(db);
    assert forall x :: Followed(x, d) == Followed(x, db);
    hide Less, Followed;
  }

  lemma DiffStarts(r: seq<string>, d: seq<string>, project: Lookup, tagged: Lookup)
    ensures Abreast(r, d, 0, 0) && Collected(Extra(r, d, 0, 0), [], d, project, tagged)
    ensures Extra(d, r, 0, 0) == multiset{}
  {
  }

  /** A name left over while names of the other list are still ahead is extra in the end, too. */
  lemma ExtraForGood(r: seq<string>, d: seq<string>, i: nat, j: nat)
    requires Sorted(d) && Abreast(r, d, i, j) && i < |r| && j < |d| && Less(r[i], d[j])
    ensures r[i] in multiset(r) - multiset(d)
  {
    hide Leq;
    var x := r[i];
    assert r == r[..i] + [x] + r[i + 1..];
    assert d == d[..j] + d[j..];
    forall b | 0 <= b < |d[j..]| ensures d[j..][b] != x { SortedFrom(d, j, j + b); LessDiffers(x, d[j], d[j + b]); }
    assert x !in multiset(d[j..]);
    assert multiset(d)[x] == multiset(d[..j])[x] <= multiset(r[..i])[x];
  }

  lemma WholeLists(r: seq<string>, d: seq<string>)
    ensures Extra(r, d, |r|, |d|) == multiset(r) - multiset(d)
  {
    assert r[..|r|] == r && d[..|d|] == d;
  }

  /** Where the merge stands, with the names to add and to delete so far. */
  ghost predicate Merging(r: seq<string>, d: seq<string>, i: nat, j: nat, add: seq<string>, del: seq<string>,
                          project: Lookup, tagged: Lookup) {
    && i <= |r| && j <= |d| && Sorted(r) && Sorted(d) && Abreast(r, d, i, j)
    && Collected(Extra(r, d, i, j), add, d, project, tagged)
    && multiset(del) == Extra(d, r, j, i)
  }

  lemma MergeLeft(r: seq<string>, d: seq<string>, i: nat, j: nat, add: seq<string>, del: seq<string>,
                  project: Lookup, tagged: Lookup)
    requires Merging(r, d, i, j, add, del, project, tagged) && i < |r| && (j < |d| ==> Less(r[i], d[j]))
    ensures Followed(r[i], d) <==> j < |d|
    ensures !Breaks(r[i], d, project, tagged) ==>
      Merging(r, d, i + 1, j, if Addable(r[i], d, project, tagged) then add + [r[i]] else add, del, project, tagged)
  {
    hide Leq, Less, Sorted, Abreast, Collected, Followed, Extra, Breaks, Addable;
    StepLeft(r, d, i, j);
    if j < |d| { FollowedBy(r[i], d, j); } else { LastIsNotFollowed(r, d, i); }
    if !Breaks(r[i], d, project, tagged) { CollectOne(Extra(r, d, i, j), add, d, project, tagged, r[i]); }
  }

  lemma MergeRight(r: seq<string>, d: seq<string>, i: nat, j: nat, add: seq<string>, del: seq<string>,
                   project: Lookup, tagged: Lookup)
    requires Merging(r, d, i, j, add, del, project, tagged) && j < |d| && (i < |r| ==> Less(d[j], r[i]))
    ensures Merging(r, d, i, j + 1, add, del + [d[j]], project, tagged)
  {
    hide Leq, Less, Sorted, Abreast, Collected, Extra;
    StepRight(r, d, i, j);
  }

  lemma MergeBoth(r: seq<string>, d: seq<string>, i: nat, j: nat, add: seq<string>, del: seq<string>,
                  project: Lookup, tagged: Lookup)
    requires Merging(r, d, i, j, add, del, project, tagged) && i < |r| && j < |d| && r[i] == d[j]
    ensures Merging(r, d, i + 1, j + 1, add, del, project, tagged)
  {
    hide Leq, Less, Sorted, Abreast, Collected, Extra;
    StepBoth(r, d, i, j);
  }

  lemma MergeStarts(registry: seq<string>, db: seq<string>, project: Lookup, tagged: Lookup)
    ensures Merging(Sort(registry), Sort(db), 0, 0, [], [], project, tagged)
  {
    SortSorts(registry);
    SortSorts(db);
    DiffStarts(Sort(registry), Sort(db), project, tagged);
  }

  lemma MergeEnds(registry: seq<string>, db: seq<string>, add: seq<string>, del: seq<string>,
                  project: Lookup, tagged: Lookup)
    requires Merging(Sort(registry), Sort(db), |Sort(registry)|, |Sort(db)|, add, del, project, tagged)
    ensures multiset(del) == multiset(db) - multiset(registry)
    ensures Collected(multiset(registry) - multiset(db), add, db, project, tagged)
  {
    hide Sorted, Abreast, Collected, Extra;
    SortSorts(registry);
    SortSorts(db);
    WholeLists(Sort(registry), Sort(db));
    WholeLists(Sort(db), Sort(registry));
    SameNames(Sort(registry), Sort(db), db, add, project, tagged);
  }

  lemma MergeBreaks(registry: seq<string>, db: seq<string>, i: nat, j: nat, add: seq<string>, del: seq<string>,
                    project: Lookup, tagged: Lookup)
    requires var r, d := Sort(registry), Sort(db);
      && Merging(r, d, i, j, add, del, project, tagged) && i < |r| && j < |d| && Less(r[i], d[j])
      && Breaks(r[i], d, project, tagged)
    ensures Sort(registry)[i] in multiset(registry) - multiset(db) && Breaks(Sort(registry)[i], db, project, tagged)
  {
    hide Leq, Less, Sorted, Abreast, Collected, Extra, Breaks;
    SortSorts(registry);
    SortSorts(db);
    ExtraForGood(Sort(registry), Sort(db), i, j);
    SameNames(Sort(registry), Sort(db), db, add, project, tagged);
  }

  /** The difference of the two lists, exactly: what to delete is what the table has more than the
      registry, what to add is what the registry has more than the table and is due. It fails exactly
      if the look-up of tags fails for a name whose tags it looks up. */
  method DiffRepos(registry: seq<string>, db: seq<string>, project: Lookup, tagged: Lookup)
    returns (add: seq<string>, del: seq<string>, ok: bool)
    ensures ok ==> multiset(del) == multiset(db) - multiset(registry)
    ensures ok ==> Collected(multiset(registry) - multiset(db), add, db, project, tagged)
    ensures !ok ==> exists x | x in multiset(registry) - multiset(db) :: Breaks(x, db, project, tagged)
  {
    hide Leq, Sorted, Collected, Component, Followed, Merging, Sort;
    var r, d := Sort(registry), Sort(db);
    var i, j := 0, 0;
    add, del, ok := [], [], true;
    MergeStarts(registry, db, project, tagged);
    while i < |r| && j < |d|
      invariant i <= |r| && j <= |d| && ok && Merging(r, d, i, j, add, del, project, tagged)
      decreases |r| - i + |d| - j
    {
      var x, y := r[i], d[j];
      var c := Compare(x, y);
      LessOrGreater(y, x);
      if c < 0 {
        MergeLeft(r, d, i, j, add, del, project, tagged);
        if Breaks(x, d, project, tagged) { MergeBreaks(registry, db, i, j, add, del, project, tagged); }
        i := i + 1;
        if project(Component(x)) != Yes {
          continue;
        }
        if tagged(x) == Failed {
          return add, del, false;
        }
        if tagged(x) == No {
          continue;
        }
        add := add + [x];
      } else if c > 0 {
        MergeRight(r, d, i, j, add, del, project, tagged);
        del := del + [y];
        j := j + 1;
      } else {
        MergeBoth(r, d, i, j, add, del, project, tagged);
        i, j := i + 1, j + 1;
      }
    }
    while i < |r|
      invariant i <= |r| && j <= |d| && ok && (i < |r| ==> j == |d|) && Merging(r, d, i, j, add, del, project, tagged)
    {
      var x := r[i];
      MergeLeft(r, d, i, j, add, del, project, tagged);
      i := i + 1;
      if project(Component(x)) != Yes {
        continue;
      }
      add := add + [x];
    }
    while j < |d|
      invariant i == |r| && j <= |d| && ok && Merging(r, d, i, j, add, del, project, tagged)
    {
      MergeRight(r, d, i, j, add, del, project, tagged);
      del := del + [d[j]];
      j := j + 1;
    }
    MergeEnds(registry, db, add, del, project, tagged);
  }

  predicate Distinct(s: seq<string>) {
    forall i, k | 0 <= i < k < |s| :: s[i] != s[k]
  }

  ghost function Names(s: seq<string>): set<string> {
    set x | x in s
  }

  lemma {:induction false} CountOfName(s: seq<string>, x: string)
    ensures x in s <==> multiset(s)[x] >= 1
    ensures Distinct(s) ==> multiset(s)[x] <= 1
  {
    if s != [] {
      assert s == [s[0]] + s[1..];
      CountOfName(s[1..], x);
    }
  }

  lemma NamesStep(s: seq<string>, i: nat)
    requires i < |s|
    ensures Names(s[..i + 1]) == Names(s[..i]) + {s[i]} && s[..|s|] == s && Names(s[..0]) == {}
  {
    assert s[..i + 1] == s[..i] + [s[i]];
  }

  lemma NamesPush(s: seq<string>, x: string)
    ensures Names(s + [x]) == Names(s) + {x} && (x in s <==> x in Names(s))
    ensures Distinct(s) && x !in s ==> Distinct(s + [x])
  {
  }

  lemma NothingNamed()
    ensures Names([]) == {} && Distinct([])
  {
  }

  lemma DistinctNext(s: seq<string>, i: nat)
    requires Distinct(s) && i < |s|
    ensures s[i] !in Names(s[..i])
  {
  }

  /** The names of the table after a sync. */
  ghost function Synced(registry: set<string>, db: set<string>, due: string -> bool): set<string> {
    (db * registry) + (set x | x in registry - db && due(x))
  }

  /** The table of repositories: a name is in it at most once. */
  class Table {
    var rows: seq<string>

    ghost predicate Valid() reads this {
      Distinct(rows)
    }

    /** A name that is already there is refused by the table, which the caller only logs. */
    method AddRepository(name: string)
      requires Valid()
      modifies this
      ensures Valid() && rows == if name in old(rows) then old(rows) else old(rows) + [name]
    {
      if name !in rows { rows := rows + [name]; }
    }

    method DeleteRepository(name: string)
      requires Valid()
      modifies this
      ensures Valid() && Names(rows) == Names(old(rows)) - {name}
    {
      hide Names, Distinct;
      var kept, i := [], 0;
      if rows != [] { NamesStep(rows, 0); }
      NothingNamed();
      while i < |rows|
        invariant i <= |rows| && rows == old(rows)
        invariant Distinct(kept) && Names(kept) == Names(rows[..i]) - {name}
      {
        NamesStep(rows, i);
        DistinctNext(rows, i);
        if rows[i] != name {
          NamesPush(kept, rows[i]);
          kept := kept + [rows[i]];
        }
        i := i + 1;
      }
      assert rows[..i] == rows;
      rows := kept;
    }

    /** One sync against the registry. If the difference cannot be told, nothing is changed. */
    method Sync(registry: seq<string>, project: Lookup, tagged: Lookup) returns (ok: bool)
      requires Valid()
      modifies this
      ensures Valid()
      ensures ok <==> forall x | x in multiset(registry) - multiset(old(rows)) :: !Breaks(x, old(rows), project, tagged)
      ensures !ok ==> rows == old(rows)
      ensures ok ==>
        Names(rows) == Synced(Names(registry), Names(old(rows)), x => Addable(x, old(rows), project, tagged))
      ensures ok ==> Names(old(rows)) * Names(registry) <= Names(rows) <= Names(registry)
      ensures ok ==> forall x | x in registry && x !in old(rows) :: x in rows <==>
        project(Component(x)) == Yes && ((exists y | y in old(rows) :: Less(x, y)) ==> tagged(x) == Yes)
    {
      hide Addable, Breaks, Collected, Names, Distinct;
      ghost var before := rows;
      var add, del;
      add, del, ok := DiffRepos(registry, rows, project, tagged);
      DiffOfNames(registry, rows, add, del, ok, project, tagged);
      if !ok {
        return;
      }
      AddAll(add);
      DeleteAll(del);
      SyncedIs(Names(registry), Names(before), x => Addable(x, before, project, tagged), Names(add), Names(del));
      AddedAre(registry, before, rows, project, tagged);
    }

    /** Two syncs against the same registry with the same answers; `between` are the rows after the first.
        The second fails only for a name the registry has twice, and it changes nothing exactly if every
        name the first passed over comes before one of the registry that is in the table or due. */
    method SyncTwice(registry: seq<string>, project: Lookup, tagged: Lookup)
      returns (ok: bool, again: bool, between: seq<string>)
      requires Valid()
      modifies this
      ensures Valid()
      ensures ok <==> forall x | x in multiset(registry) - multiset(old(rows)) :: !Breaks(x, old(rows), project, tagged)
      ensures !ok ==> !again && rows == old(rows)
      ensures ok ==>
        Names(between) == Synced(Names(registry), Names(old(rows)), x => Addable(x, old(rows), project, tagged))
      ensures ok ==> (again <==> forall x | x in between && multiset(registry)[x] > 1 ::
        !(project(Component(x)) == Yes && tagged(x) == Failed
          && Trails(x, Names(registry), old(rows), project, tagged)))
      ensures ok && !again ==> rows == between
      ensures ok && again ==> (Names(rows) == Names(between) <==>
        forall x | x in Names(registry) - Names(old(rows)) && PassedOver(x, old(rows), project, tagged) ::
          Trails(x, Names(registry), old(rows), project, tagged))
    {
      hide Addable, Breaks, Names, Distinct, Trails, PassedOver, Component, Synced;
      ghost var before := rows;
      again := false;
      ok := Sync(registry, project, tagged);
      between := rows;
      if ok {
        again := Sync(registry, project, tagged);
        SecondSyncWorks(registry, before, between, project, tagged);
        SecondSyncAdds(Names(registry), before, between, project, tagged);
      }
    }

    method AddAll(add: seq<string>)
      requires Valid()
      modifies this
      ensures Valid() && Names(rows) == Names(old(rows)) + Names(add)
    {
      hide Names, Distinct;
      NothingNamed();
      var i := 0;
      while i < |add|
        invariant i <= |add| && Valid() && Names(rows) == Names(old(rows)) + Names(add[..i])
      {
        NamesStep(add, i);
        NamesPush(rows, add[i]);
        AddRepository(add[i]);
        i := i + 1;
      }
      assert add[..i] == add;
    }

    method DeleteAll(del: seq<string>)
      requires Valid()
      modifies this
      ensures Valid() && Names(rows) == Names(old(rows)) - Names(del)
    {
      hide Names, Distinct;
      NothingNamed();
      var j := 0;
      while j < |del|
        invariant j <= |del| && Valid() && Names(rows) == Names(old(rows)) - Names(del[..j])
      {
        NamesStep(del, j);
        DeleteRepository(del[j]);
        j := j + 1;
      }
      assert del[..j] == del;
    }
  }

  lemma SyncedIs(registry: set<string>, db: set<string>, due: string -> bool, add: set<string>, del: set<string>)
    requires del == db - registry && db + add == db + set x | x in registry - db && due(x)
    requires add <= registry
    ensures db + add - del == Synced(registry, db, due)
  {
    assert forall x :: x in db + add <==> x in db + set x | x in registry - db && due(x);
  }

  lemma AddedAre(registry: seq<string>, before: seq<string>, after: seq<string>, project: Lookup, tagged: Lookup)
    requires Names(after) == Synced(Names(registry), Names(before), x => Addable(x, before, project, tagged))
    ensures forall x | x in registry && x !in before :: x in after <==>
      project(Component(x)) == Yes && ((exists y | y in before :: Less(x, y)) ==> tagged(x) == Yes)
  {
    hide Component, Less;
    var due := x => Addable(x, before, project, tagged);
    forall x | x in registry && x !in before ensures x in after <==> Addable(x, before, project, tagged) {
      assert due(x) == Addable(x, before, project, tagged);
      assert x in after <==> x in Names(after);
      assert x in Names(registry) && x !in Names(before);
    }
  }

  /** The difference in terms of names. A table holds each name once; the registry may repeat one. */
  lemma DiffOfNames(registry: seq<string>, db: seq<string>, add: seq<string>, del: seq<string>, ok: bool,
                    project: Lookup, tagged: Lookup)
    requires Distinct(db)
    requires ok ==> multiset(del) == multiset(db) - multiset(registry)
    requires ok ==> Collected(multiset(registry) - multiset(db), add, db, project, tagged)
    requires !ok ==> exists x | x in multiset(registry) - multiset(db) :: Breaks(x, db, project, tagged)
    ensures ok ==> Names(del) == Names(db) - Names(registry)
    ensures ok ==> Names(add) <= Names(registry)
    ensures ok ==>
      Names(db) + Names(add) == Names(db) + set x | x in Names(registry) - Names(db) && Addable(x, db, project, tagged)
    ensures ok <==> forall x | x in multiset(registry) - multiset(db) :: !Breaks(x, db, project, tagged)
  {
    hide Breaks, Addable;
    forall x {:trigger x in del} ensures ok ==> (x in del <==> x in db && x !in registry) {
      CountOfName(del, x);
      CountOfName(db, x);
      CountOfName(registry, x);
    }
    forall x {:trigger x in add}
      ensures ok && x in add ==> x in registry
      ensures ok ==> (x in db || x in add <==> x in db || (x in registry && Addable(x, db, project, tagged)))
    {
      CountOfName(add, x);
      CountOfName(db, x);
      CountOfName(registry, x);
    }
  }

  /** A name the first sync passes over although its project exists: it had no tag, or its tags were
      not known, while some name of the table came after it. */
  predicate PassedOver(x: string, db: seq<string>, project: Lookup, tagged: Lookup) {
    project(Component(x)) == Yes && Followed(x, db) && tagged(x) != Yes
  }

  /** A name of the registry that sorts after `x` and is in the table after a first sync. */
  ghost predicate Trails(x: string, registry: set<string>, before: seq<string>, project: Lookup, tagged: Lookup) {
    exists y | y in registry :: Less(x, y) && (y in before || Addable(y, before, project, tagged))
  }

  lemma FollowedAfter(x: string, registry: set<string>, before: seq<string>, after: seq<string>,
                      project: Lookup, tagged: Lookup)
    requires Names(after) == Synced(registry, Names(before), x => Addable(x, before, project, tagged))
    ensures Followed(x, after) <==> Trails(x, registry, before, project, tagged)
  {
    hide Less, Addable;
    var due := x => Addable(x, before, project, tagged);
    forall y {:trigger y in after}
      ensures y in after <==> y in registry && (y in before || Addable(y, before, project, tagged))
    {
      assert y in after <==> y in Names(after);
      assert due(y) == Addable(y, before, project, tagged);
    }
  }

  /** When the second of two syncs adds nothing: exactly if every name the first one passes over comes
      before a name of the registry that is in the table or due to be added. */
  lemma SecondSyncAdds(registry: set<string>, before: seq<string>, after: seq<string>, project: Lookup, tagged: Lookup)
    requires Names(after) == Synced(registry, Names(before), x => Addable(x, before, project, tagged))
    ensures Synced(registry, Names(after), x => Addable(x, after, project, tagged)) == Names(after)
      <==> forall x | x in registry - Names(before) && PassedOver(x, before, project, tagged) ::
        Trails(x, registry, before, project, tagged)
  {
    hide Followed, Component, Names, Trails;
    var due := x => Addable(x, before, project, tagged);
    forall x | x in registry
      ensures x !in Names(after) <==> x !in Names(before) && !Addable(x, before, project, tagged)
    {
      assert due(x) == Addable(x, before, project, tagged);
      assert x in Synced(registry, Names(before), due) <==> x in Names(before) || due(x);
    }
    forall x | x in registry && x !in Names(before) && PassedOver(x, before, project, tagged)
      ensures x !in Names(after)
      ensures Trails(x, registry, before, project, tagged) <==> !Addable(x, after, project, tagged)
    {
      FollowedAfter(x, registry, before, after, project, tagged);
    }
    forall x | x in registry && x !in Names(after)
      ensures Addable(x, after, project, tagged) ==> x !in Names(before) && PassedOver(x, before, project, tagged) {}
    AddsNothing(registry, Names(after), x => Addable(x, after, project, tagged));
  }

  /** When the look-ups of the second of two syncs succeed, if those of the first do. */
  lemma SecondSyncWorks(registry: seq<string>, before: seq<string>, after: seq<string>, project: Lookup, tagged: Lookup)
    requires Distinct(after)
    requires Names(after) == Synced(Names(registry), Names(before), x => Addable(x, before, project, tagged))
    requires forall x | x in multiset(registry) - multiset(before) :: !Breaks(x, before, project, tagged)
    ensures (forall x | x in multiset(registry) - multiset(after) :: !Breaks(x, after, project, tagged)) <==>
      forall x | x in after && multiset(registry)[x] > 1 ::
        !(project(Component(x)) == Yes && Trails(x, Names(registry), before, project, tagged) && tagged(x) == Failed)
  {
    hide Trails, Component, Followed, Distinct, Synced, Names;
    forall x
      ensures x in after ==> (x in multiset(registry) - multiset(after) <==> multiset(registry)[x] > 1)
      ensures x in after ==> (Breaks(x, after, project, tagged) <==>
        project(Component(x)) == Yes && Trails(x, Names(registry), before, project, tagged) && tagged(x) == Failed)
      ensures x !in after && x in multiset(registry) ==> !Breaks(x, after, project, tagged)
    {
      CountOfName(after, x);
      FollowedAfter(x, Names(registry), before, after, project, tagged);
      if x !in after && x in multiset(registry) { LeftOutWorks(registry, before, after, project, tagged, x); }
    }
  }

  /** A name the first sync has not put into the table was looked up without failure or not at all. */
  lemma LeftOutWorks(registry: seq<string>, before: seq<string>, after: seq<string>, project: Lookup, tagged: Lookup,
                     x: string)
    requires Names(after) == Synced(Names(registry), Names(before), x => Addable(x, before, project, tagged))
    requires forall x | x in multiset(registry) - multiset(before) :: !Breaks(x, before, project, tagged)
    requires x in registry && x !in after
    ensures !(project(Component(x)) == Yes && tagged(x) == Failed)
  {
    hide Component, Followed;
    var due := x => Addable(x, before, project, tagged);
    assert x !in Names(after) && x in Names(registry);
    assert due(x) == Addable(x, before, project, tagged);
    assert x !in before && !Addable(x, before, project, tagged);
    assert x in multiset(registry) - multiset(before);
  }

  lemma AddsNothing(registry: set<string>, db: set<string>, due: string -> bool)
    requires db <= registry
    ensures Synced(registry, db, due) == db <==> forall x | x in registry - db :: !due(x)
  {
    assert forall x :: x in Synced(registry, db, due) <==> x in registry && (x in db || due(x));
  }

  /** If every name of the registry has a tag, a second sync changes nothing. */
  lemma SyncSettles(registry: set<string>, before: seq<string>, after: seq<string>, project: Lookup, tagged: Lookup)
    requires Names(after) == Synced(registry, Names(before), x => Addable(x, before, project, tagged))
    requires forall x | x in registry :: tagged(x) == Yes
    ensures Synced(registry, Names(after), x => Addable(x, after, project, tagged)) == Names(after)
  {
    hide Followed, Component;
    SecondSyncAdds(registry, before, after, project, tagged);
  }

  /** A second sync can add a name: the one after it has been deleted by the first. */
  lemma SyncNeedNotSettle(project: Lookup, tagged: Lookup)
    requires project("p") == Yes && tagged("p/a") == No
    ensures Synced({"p/a"}, {"p/b"}, x => Addable(x, ["p/b"], project, tagged)) == {}
    ensures Synced({"p/a"}, {}, x => Addable(x, [], project, tagged)) == {"p/a"}
  {
    hide Component;
    ComponentOfTwo("p", "a");
    assert "p" + "/" + "a" == "p/a";
    assert Leq("/b"[1..], "b");
    assert "p/a"[1..] == "/a" && "p/b"[1..] == "/b" && "/a"[1..] == "a" && "/b"[1..] == "b";
    assert Leq("a", "b") && Leq("/a", "/b") && Leq("p/a", "p/b");
    assert "p/a"[2] != "p/b"[2];
    assert "p/b" in ["p/b"] && Less("p/a", "p/b");
  }
}
