/** The quota ledger: how many images a project has and how much room they take, kept in step with
    the table of images over pushes and deletes. Sizes are exact numbers here. */
module Quota {
  import opened Strings

  datatype Image = Image(user: string, project: string, high: nat, other: nat, size: real)

  datatype Usage = Usage(num: int, size: real)

  /** The images of project `p`. */
  ghost function ImagesOf(images: map<string, Image>, p: string): set<string> {
    set k | k in images && images[k].project == p
  }

  ghost function Part(images: map<string, Image>, k: string, p: string): real
    requires k in images
  {
    if images[k].project == p then images[k].size else 0.0
  }

  /** The sum of the sizes of the images of project `p`. */
  ghost function SizeOf(images: map<string, Image>, p: string): real
    decreases |images|
  {
    if images == map[] then 0.0 else
    var k :| k in images;
    Part(images, k, p) + SizeOf(images - {k}, p)
  }

  lemma {:induction false} SizeWithout(images: map<string, Image>, k: string, p: string)
    requires k in images
    ensures SizeOf(images, p) == Part(images, k, p) + SizeOf(images - {k}, p)
    decreases |images|
  {
    var c :| c in images && SizeOf(images, p) == Part(images, c, p) + SizeOf(images - {c}, p);
    if c != k {
      SizeWithout(images - {c}, k, p);
      SizeWithout(images - {k}, c, p);
      assert (images - {c}) - {k} == (images - {k}) - {c};
      assert Part(images - {c}, k, p) == Part(images, k, p) && Part(images - {k}, c, p) == Part(images, c, p);
    }
  }

  /** How many images project `p` has once image `k` has become `image`, which is new or replaces one of
      the same project. */
  lemma PutCounts(images: map<string, Image>, k: string, image: Image, p: string)
    requires k in images ==> images[k].project == image.project
    ensures |ImagesOf(images[k := image], p)|
      == |ImagesOf(images, p)| + (if k !in images && p == image.project then 1 else 0)
  {
    var before, after := ImagesOf(images, p), ImagesOf(images[k := image], p);
    var added := if k !in images && p == image.project then {k} else {};
    forall x ensures x in after <==> x in before + added {
      if x != k { assert x in images[k := image] <==> x in images; }
    }
    assert after == before + added && before !! added;
    hide ImagesOf;
  }

  /** And how much room they take. */
  lemma PutChanges(images: map<string, Image>, k: string, image: Image, p: string)
    requires k in images ==> images[k].project == image.project
    ensures SizeOf(images[k := image], p) == SizeOf(images, p)
      + if p != image.project then 0.0 else image.size - if k in images then images[k].size else 0.0
  {
    hide SizeOf;
    var after := images[k := image];
    SizeWithout(after, k, p);
    if k in images {
      SizeWithout(images, k, p);
      assert after - {k} == images - {k};
    } else {
      assert after - {k} == images;
    }
  }

  lemma RemoveChanges(images: map<string, Image>, k: string, p: string)
    requires k in images
    ensures |ImagesOf(images - {k}, p)| == |ImagesOf(images, p)| - (if p == images[k].project then 1 else 0)
    ensures SizeOf(images - {k}, p) == SizeOf(images, p) - Part(images, k, p)
  {
    SizeWithout(images, k, p);
    assert ImagesOf(images - {k}, p) == ImagesOf(images, p) - if p == images[k].project then {k} else {};
  }

  /** Every project's numbers are those of its images. */
  ghost predicate Balanced(images: map<string, Image>, quotas: map<string, Usage>) {
    forall p | p in quotas :: quotas[p].num == |ImagesOf(images, p)| && quotas[p].size == SizeOf(images, p)
  }

  /** Counting a new image and adding the difference of its sizes keeps the balance. */
  lemma PutBalances(images: map<string, Image>, quotas: map<string, Usage>, k: string, image: Image,
                    after: map<string, Usage>)
    requires Balanced(images, quotas) && (k in images ==> images[k].project == image.project)
    requires after.Keys == quotas.Keys && forall p | p in quotas ::
      after[p] == if p != image.project then quotas[p]
        else Usage(quotas[p].num + (if k in images then 0 else 1),
                   quotas[p].size + (image.size - if k in images then images[k].size else 0.0))
    ensures Balanced(images[k := image], after)
  {
    hide ImagesOf, SizeOf;
    forall p | p in after
      ensures after[p].num == |ImagesOf(images[k := image], p)| && after[p].size == SizeOf(images[k := image], p)
    {
      PutCounts(images, k, image, p);
      PutChanges(images, k, image, p);
    }
  }

  lemma RemoveBalances(images: map<string, Image>, quotas: map<string, Usage>, k: string, after: map<string, Usage>)
    requires Balanced(images, quotas) && k in images
    requires after.Keys == quotas.Keys && forall p | p in quotas ::
      after[p] == if p != images[k].project then quotas[p]
        else Usage(quotas[p].num - 1, quotas[p].size - images[k].size)
    ensures Balanced(images - {k}, after)
  {
    hide ImagesOf, SizeOf;
    forall p | p in after
      ensures after[p].num == |ImagesOf(images - {k}, p)| && after[p].size == SizeOf(images - {k}, p)
    {
      RemoveChanges(images, k, p);
    }
  }

  /** The image is named after a repository of its project: one colon, and the project before it. */
  predicate NamedRight(name: string, project: string) {
    ':' in name && ':' !in name[..LastIndex(name, ':')] && project == Component(name[..LastIndex(name, ':')])
  }

  lemma NameOfParts(repository: string, tag: string)
    ensures ':' !in repository && ':' !in tag ==> NamedRight(repository + ":" + tag, Component(repository))
    ensures forall p :: NamedRight(repository + ":" + tag, p) ==> p == Component(repository)
  {
    hide Component, LastIndex;
    var name := repository + ":" + tag;
    assert name[|repository|] == ':';
    var i := LastIndex(name, ':');
    assert i > |repository| ==> ':' in name[..i] by { assert i > |repository| ==> name[..i][|repository|] == ':'; }
    assert i > |repository| ==> name[i] == tag[i - |repository| - 1];
    assert i == |repository| ==> name[..i] == repository;
  }

  /** What the registry says to the deletion of a tag. */
  datatype TagReply = Gone | Unknown | Refused

  /** How many of the first `n` tags the loop gets through: up to the first one refused. */
  function Reached(reply: nat -> TagReply, n: nat): (r: nat)
    ensures r <= n && (forall i | 0 <= i < r :: reply(i) != Refused) && (r < n ==> reply(r) == Refused)
  {
    if n == 0 then 0
    else if Reached(reply, n - 1) < n - 1 || reply(n - 1) == Refused then Reached(reply, n - 1)
    else n
  }

  /** The tags whose deletion is passed on: those the registry had, and those an image of which, one of
      `sized`, is taken off the ledger for the first time. */
  function PassedOn(tags: seq<string>, reply: nat -> TagReply, sized: set<string>, n: nat): seq<string>
    requires n <= |tags|
  {
    if n == 0 then [] else
    var t := tags[n - 1];
    PassedOn(tags, reply, sized, n - 1)
      + if reply(n - 1) == Gone || (t in sized && t !in tags[..n - 1]) then [t] else []
  }

  class Ledger {
    var images: map<string, Image>
    var quotas: map<string, Usage>

    ghost predicate Valid() reads this {
      forall k | k in images :: NamedRight(k, images[k].project)
    }

    /** Counts an image that is not in the table yet. */
    method AddQuotaNum(name: string, project: string)
      modifies this`quotas
      ensures quotas == if project in old(quotas) && name !in images
        then old(quotas)[project := Usage(old(quotas)[project].num + 1, old(quotas)[project].size)] else old(quotas)
    {
      var check := name in images;
      if project !in quotas {
        return;
      }
      if !check {
        quotas := quotas[project := Usage(quotas[project].num + 1, quotas[project].size)];
      }
    }

    /** Stores what the scan found. A new row has no size yet. */
    method CheckImageSafety(name: string, user: string, project: string, high: nat, other: nat)
      modifies this`images
      ensures images == old(images)[name :=
        Image(user, project, high, other, if name in old(images) then old(images)[name].size else 0.0)]
    {
      if name in images {
        images := images[name := images[name].(user := user, project := project, high := high, other := other)];
      } else {
        images := images[name := Image(user, project, high, other, 0.0)];
      }
    }

    /** Stores the size and adds the difference to the old size to the project. */
    method CheckImageSize(name: string, user: string, project: string, size: real)
      modifies this
      ensures name in images && images == old(images)[name := images[name]] && images[name].size == size
      ensures name in old(images) ==> images[name] == old(images)[name].(size := size)
      ensures name !in old(images) ==> images[name] == Image(user, project, 0, 0, size)
      ensures var added := size - if name in old(images) then old(images)[name].size else 0.0;
        quotas == if project in old(quotas)
          then old(quotas)[project := Usage(old(quotas)[project].num, old(quotas)[project].size + added)]
          else old(quotas)
    {
      var added := size;
      if name in images {
        added := size - images[name].size;
        images := images[name := images[name].(size := size)];
      } else {
        images := images[name := Image(user, project, 0, 0, size)];
      }
      if project in quotas {
        quotas := quotas[project := Usage(quotas[project].num, quotas[project].size + added)];
      }
    }

    /** What the notification of a push sets off: count, scan, store the result, store the size. The
        scan may fail; then it says 0. */
    method Push(repository: string, tag: string, user: string, high: nat, other: nat, size: real)
      requires ':' !in repository && ':' !in tag && Valid() && Balanced(images, quotas)
      modifies this
      ensures Valid() && Balanced(images, quotas)
      ensures images == old(images)[repository + ":" + tag := Image(user, Component(repository), high, other, size)]
      ensures quotas.Keys == old(quotas.Keys)
    {
      hide Component, NamedRight, Balanced;
      var name, project := repository + ":" + tag, Component(repository);
      NameOfParts(repository, tag);
      assert name in images ==> NamedRight(name, images[name].project);
      AddQuotaNum(name, project);
      CheckImageSafety(name, user, project, high, other);
      CheckImageSize(name, user, project, size);
      assert images == old(images)[name := images[name]];
      PutBalances(old(images), old(quotas), name, images[name], quotas);
    }

    /** Takes an image off the ledger. An image without a size, or of a project without quota, stays. */
    method UpdateQuota(project: string, name: string) returns (done: bool)
      requires Valid() && Balanced(images, quotas) && forall p :: NamedRight(name, p) ==> p == project
      modifies this
      ensures Valid() && Balanced(images, quotas) && quotas.Keys == old(quotas.Keys)
      ensures done <==> project in quotas && name in old(images) && old(images)[name].size > 0.0
      ensures images == if done then old(images) - {name} else old(images)
      ensures !done ==> quotas == old(quotas)
    {
      hide Component, NamedRight, Balanced;
      if project !in quotas {
        return false;
      }
      if name !in images {
        return false;
      }
      if images[name].size <= 0.0 {
        return false;
      }
      assert NamedRight(name, images[name].project);
      quotas := quotas[project := Usage(quotas[project].num - 1, quotas[project].size - images[name].size)];
      RemoveBalances(images, old(quotas), name, quotas);
      images := images - {name};
      done := true;
    }

    /** The tags with an image that has a size, in a project with a quota. */
    ghost function Sized(repository: string, tags: seq<string>): set<string>
      reads this
    {
      set t | t in tags && repository + ":" + t in images && images[repository + ":" + t].size > 0.0
        && Component(repository) in quotas
    }

    /** Deletes tags of a repository one after the other; `reply` is what the registry says to the i-th. It may
        not know a tag, which alone does not stop the loop; any other failure does. `deleted` are the tags
        whose deletion is passed on to the replication policies. */
    method DeleteTags(repository: string, tags: seq<string>, reply: nat -> TagReply)
      returns (deleted: seq<string>, ok: bool)
      requires Valid() && Balanced(images, quotas)
      modifies this
      ensures Valid() && Balanced(images, quotas) && quotas.Keys == old(quotas.Keys)
      ensures ok <==> forall i | 0 <= i < |tags| :: reply(i) != Refused
      ensures var n, sized := Reached(reply, |tags|), old(Sized(repository, tags));
        && deleted == PassedOn(tags, reply, sized, n)
        && images == old(images) - set t | t in tags[..n] && t in sized :: repository + ":" + t
    {
      hide Component, NamedRight, Balanced;
      deleted, ok := [], true;
      var project := Component(repository);
      ghost var sized := Sized(repository, tags);
      ghost var taken: set<string> := {};
      for i := 0 to |tags|
        invariant Valid() && Balanced(images, quotas) && quotas.Keys == old(quotas.Keys)
        invariant forall k | 0 <= k < i :: reply(k) != Refused
        invariant taken == set t | t in tags[..i] && t in sized :: repository + ":" + t
        invariant images == old(images) - taken
        invariant deleted == PassedOn(tags, reply, sized, i)
      {
        var t := tags[i];
        TakenNext(repository, tags, sized, i);
        if reply(i) == Refused {
          ReachedIs(reply, i, |tags|);
          return deleted, false;
        }
        NameOfParts(repository, t);
        var updated := UpdateQuota(project, repository + ":" + t);
        taken := if t in sized then taken + {repository + ":" + t} else taken;
        if reply(i) == Unknown && !updated {
          continue;
        }
        deleted := deleted + [t];
      }
      ReachedIs(reply, |tags|, |tags|);
    }

    /** A scan that is asked for again stores the new size in the image alone. */
    method Rescan(name: string, high: nat, other: nat, size: real)
      modifies this`images
      ensures images == if name in old(images)
        then old(images)[name := old(images)[name].(high := high, other := other, size := size)] else old(images)
    {
      if name in images {
        images := images[name := images[name].(high := high, other := other, size := size)];
      }
    }

    /** A new project starts with an empty quota; a name that has a quota is refused by the table. That is
        balanced exactly if no image of an earlier project of this name is left. */
    method CreateProject(project: string)
      modifies this`quotas
      ensures quotas == if project in old(quotas) then old(quotas) else old(quotas)[project := Usage(0, 0.0)]
      ensures project !in old(quotas) && Balanced(images, old(quotas)) ==>
        (Balanced(images, quotas) <==> ImagesOf(images, project) == {})
    {
      hide Balanced, ImagesOf;
      if project in quotas {
        return;
      }
      if Balanced(images, quotas) { CreatedBalances(images, quotas, project); }
      quotas := quotas[project := Usage(0, 0.0)];
    }

    /** A deleted project gives up its quota. Its images stay where they are. */
    method DeleteProject(project: string)
      modifies this`quotas
      ensures quotas == old(quotas) - {project}
      ensures Balanced(images, old(quotas)) ==> Balanced(images, quotas)
    {
      quotas := quotas - {project};
    }

    /** Pushes and deletions of tags and projects, one at a time, in any number and order, keep the ledger. */
    method Run(events: seq<Event>)
      requires Valid() && Balanced(images, quotas)
      requires forall e | e in events && e.Pushed? :: ':' !in e.repository && ':' !in e.tag
      modifies this
      ensures Valid() && Balanced(images, quotas) && quotas.Keys <= old(quotas.Keys)
    {
      hide Balanced, NamedRight;
      for i := 0 to |events|
        invariant Valid() && Balanced(images, quotas) && quotas.Keys <= old(quotas.Keys)
      {
        assert events[i] in events;
        match events[i] {
          case Pushed(repository, tag, user, high, other, size) => Push(repository, tag, user, high, other, size);
          case Deleted(repository, tags, reply) => var _, _ := DeleteTags(repository, tags, reply);
          case Dropped(project) => DeleteProject(project);
        }
      }
    }
  }

  datatype Event =
    | Pushed(repository: string, tag: string, user: string, high: nat, other: nat, size: real)
    | Deleted(repository: string, tags: seq<string>, reply: nat -> TagReply)
    | Dropped(project: string)

  lemma {:induction false} ReachedIs(reply: nat -> TagReply, i: nat, n: nat)
    requires i <= n && (forall k | 0 <= k < i :: reply(k) != Refused) && (i < n ==> reply(i) == Refused)
    ensures Reached(reply, n) == i
  {
  }

  /** What is taken off with one tag more, and whether its image was taken off before. */
  lemma TakenNext(repository: string, tags: seq<string>, sized: set<string>, i: nat)
    requires i < |tags|
    ensures var before := set t | t in tags[..i] && t in sized :: repository + ":" + t;
      var name := repository + ":" + tags[i];
      && (set t | t in tags[..i + 1] && t in sized :: repository + ":" + t)
          == before + (if tags[i] in sized then {name} else {})
      && (name in before <==> tags[i] in sized && tags[i] in tags[..i])
  {
    NamesDiffer(repository, tags[i]);
    assert tags[..i + 1] == tags[..i] + [tags[i]];
  }

  /** Passed on are exactly the tags the registry had and those whose image was taken off. */
  lemma {:induction false} PassedOnHas(tags: seq<string>, reply: nat -> TagReply, sized: set<string>, n: nat, t: string)
    requires n <= |tags|
    ensures t in PassedOn(tags, reply, sized, n) <==>
      t in tags[..n] && (t in sized || exists i | 0 <= i < n :: tags[i] == t && reply(i) == Gone)
  {
    if n > 0 {
      PassedOnHas(tags, reply, sized, n - 1, t);
      assert tags[..n] == tags[..n - 1] + [tags[n - 1]];
    }
  }

  lemma NamesDiffer(repository: string, t: string)
    ensures forall u :: repository + ":" + u == repository + ":" + t ==> u == t
  {
    forall u | repository + ":" + u == repository + ":" + t ensures u == t {
      assert (repository + ":" + u)[|repository| + 1..] == u;
      assert (repository + ":" + t)[|repository| + 1..] == t;
    }
  }

  lemma {:induction false} NoImagesNoSize(images: map<string, Image>, p: string)
    requires ImagesOf(images, p) == {}
    ensures SizeOf(images, p) == 0.0
    decreases |images|
  {
    if images != map[] {
      var k :| k in images && SizeOf(images, p) == Part(images, k, p) + SizeOf(images - {k}, p);
      assert k !in ImagesOf(images, p) && Part(images, k, p) == 0.0;
      forall x ensures x !in ImagesOf(images - {k}, p) { assert x !in ImagesOf(images, p); }
      NoImagesNoSize(images - {k}, p);
    }
  }

  /** An empty quota is right exactly for a project without images. */
  lemma CreatedBalances(images: map<string, Image>, quotas: map<string, Usage>, p: string)
    requires p !in quotas && Balanced(images, quotas)
    ensures Balanced(images, quotas[p := Usage(0, 0.0)]) <==> ImagesOf(images, p) == {}
  {
    hide ImagesOf, SizeOf;
    var after := quotas[p := Usage(0, 0.0)];
    if ImagesOf(images, p) == {} {
      NoImagesNoSize(images, p);
    } else {
      assert |ImagesOf(images, p)| != after[p].num;
    }
  }

  /** So deleting a project while an image of it is left, which one without a size is, and creating it
      again loses the balance. */
  lemma RecreatedUnbalances(images: map<string, Image>, quotas: map<string, Usage>, p: string, name: string)
    requires Balanced(images, quotas) && name in images && images[name].project == p
    ensures !Balanced(images, (quotas - {p})[p := Usage(0, 0.0)])
  {
    assert name in ImagesOf(images, p);
    CreatedBalances(images, quotas - {p}, p);
  }

  /** A rescan keeps the ledger exactly if it finds the old size, or the project has no quota. */
  lemma RescanBalances(images: map<string, Image>, quotas: map<string, Usage>, name: string,
                       high: nat, other: nat, size: real)
    requires Balanced(images, quotas) && name in images
    ensures Balanced(images[name := images[name].(high := high, other := other, size := size)], quotas)
      <==> size == images[name].size || images[name].project !in quotas
  {
    var image := images[name].(high := high, other := other, size := size);
    hide ImagesOf, SizeOf;
    forall p ensures p in quotas ==>
      |ImagesOf(images[name := image], p)| == quotas[p].num
      && SizeOf(images[name := image], p)
        == quotas[p].size + if p == image.project then size - images[name].size else 0.0
    {
      PutCounts(images, name, image, p);
      PutChanges(images, name, image, p);
    }
  }
}
