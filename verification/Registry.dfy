/** The two registries of a transfer: what they hold, and the remote calls made to them. */
module Registry {
  import opened States

  datatype Option<+T> = None | Some(value: T)
  datatype Reply<+T> = Got(value: T) | Lost(err: Err)

  type Tag = string
  type Digest = string

  /** A manifest names its layers and, in schema 2, a config blob; `body` is the rest of it. */
  datatype Manifest = Manifest(layers: seq<Digest>, config: Option<Digest>, body: string)

  /** Manifest digests are an ideal hash: equal digests come from equal manifests. */
  datatype ManifestDigest = NoDigest | DigestOf(manifest: Manifest)

  /** What a registry holds for one repository. */
  datatype Content = Content(tags: map<Tag, Manifest>, blobs: set<Digest>)

  function Blobs(m: Manifest): seq<Digest> {
    m.layers + if m.config.Some? then [m.config.value] else []
  }

  predicate Complete(c: Content, m: Manifest) {
    forall b | b in Blobs(m) :: b in c.blobs
  }

  /** Every manifest the registry serves can be pulled: its layers and config are there. */
  predicate Closed(c: Content) {
    forall t | t in c.tags :: Complete(c, c.tags[t])
  }

  predicate Copied(d: Content, src: Content, t: Tag) {
    t in src.tags && t in d.tags && d.tags[t] == src.tags[t] && Complete(d, d.tags[t])
  }

  function BlobsOf(src: Content, tags: seq<Tag>): set<Digest> {
    set t, b | t in tags && t in src.tags && b in Blobs(src.tags[t]) :: b
  }

  ghost function ListOf(s: set<Tag>): (r: seq<Tag>)
    ensures forall t :: t in r <==> t in s
  {
    if s == {} then [] else var x :| x in s; [x] + ListOf(s - {x})
  }

  /** The tags a job is about: those it names, or without any all tags of the source. */
  ghost function Wanted(tags: seq<Tag>, src: Content): seq<Tag> {
    if tags == [] then ListOf(src.tags.Keys) else tags
  }

  /** The destination after the listed tags of the source have been replicated to it. */
  function Replicated(d: Content, src: Content, tags: seq<Tag>): Content {
    Content(
      map t | t in d.tags.Keys + src.tags.Keys && (t in d.tags || t in tags) ::
        if t in tags && t in src.tags then src.tags[t] else d.tags[t],
      d.blobs + BlobsOf(src, tags))
  }

  /** `d` lies somewhere on the way from `d0` to the replicated state. */
  predicate Between(d0: Content, d: Content, src: Content, tags: seq<Tag>) {
    && d0.tags.Keys <= d.tags.Keys
    && (forall t | t in d.tags ::
          (t in tags && t in src.tags && d.tags[t] == src.tags[t]) || (t in d0.tags && d.tags[t] == d0.tags[t]))
    && d0.blobs <= d.blobs <= d0.blobs + BlobsOf(src, tags)
  }

  function WithTag(c: Content, t: Tag, m: Manifest): Content {
    c.(tags := c.tags[t := m])
  }

  /** Nothing changed but that some blobs of `m` were added. */
  predicate OnlyBlobsFrom(c: Content, c': Content, m: Manifest) {
    && c'.tags == c.tags && c.blobs <= c'.blobs
    && forall b | b in c'.blobs :: b in c.blobs || b in Blobs(m)
  }

  /** On the way to the replicated state, with the first `k` tags copied. */
  predicate Advanced(d0: Content, d: Content, src: Content, tags: seq<Tag>, k: nat) {
    k <= |tags| && Between(d0, d, src, tags) && forall i | 0 <= i < k :: Copied(d, src, tags[i])
  }

  lemma NothingCopiedYet(d: Content, src: Content, tags: seq<Tag>)
    ensures Advanced(d, d, src, tags, 0)
  {
  }

  lemma NothingBetween(d: Content, src: Content, tags: seq<Tag>)
    ensures Between(d, d, src, tags)
  {
  }

  lemma BlobsKeepAdvanced(d0: Content, d: Content, d': Content, src: Content, tags: seq<Tag>, k: nat)
    requires Advanced(d0, d, src, tags, k) && k < |tags| && tags[k] in src.tags
    requires OnlyBlobsFrom(d, d', src.tags[tags[k]])
    ensures Advanced(d0, d', src, tags, k)
  {
    assert forall b | b in Blobs(src.tags[tags[k]]) :: b in BlobsOf(src, tags);
  }

  lemma PushAdvances(d0: Content, d: Content, src: Content, tags: seq<Tag>, k: nat)
    requires Advanced(d0, d, src, tags, k) && k < |tags|
    requires tags[k] in src.tags && Complete(d, src.tags[tags[k]])
    ensures Advanced(d0, WithTag(d, tags[k], src.tags[tags[k]]), src, tags, k + 1)
  {
    var d' := WithTag(d, tags[k], src.tags[tags[k]]);
    forall i | 0 <= i < k + 1 ensures Copied(d', src, tags[i]) {
      assert i < k ==> Copied(d, src, tags[i]);
    }
  }

  /** Whether the push of a manifest happens or not, nothing done so far is undone. */
  lemma PushKeepsAdvanced(d0: Content, d: Content, src: Content, tags: seq<Tag>, k: nat)
    requires Advanced(d0, d, src, tags, k) && k < |tags|
    requires tags[k] in src.tags && Complete(d, src.tags[tags[k]])
    ensures Between(d0, d, src, tags)
    ensures var d' := WithTag(d, tags[k], src.tags[tags[k]]);
      Between(d0, d', src, tags) && Advanced(d0, d', src, tags, k) && Advanced(d0, d', src, tags, k + 1)
  {
    hide Between, Copied;
    PushAdvances(d0, d, src, tags, k);
  }

  lemma CopiedAllIsReplicated(d0: Content, d: Content, src: Content, tags: seq<Tag>)
    requires Advanced(d0, d, src, tags, |tags|)
    ensures d == Replicated(d0, src, tags)
  {
    assert forall t | t in tags :: Copied(d, src, t);
    assert d.tags == Replicated(d0, src, tags).tags;
    assert BlobsOf(src, tags) <= d.blobs;
  }

  /** Work done by an unfinished attempt changes nothing in what a finished one leaves. */
  lemma PartialWorkIsAbsorbed(d0: Content, d: Content, src: Content, tags: seq<Tag>)
    requires Between(d0, d, src, tags)
    ensures Replicated(d, src, tags) == Replicated(d0, src, tags)
  {
    assert Replicated(d, src, tags).tags == Replicated(d0, src, tags).tags;
  }

  lemma BetweenIsTransitive(d0: Content, d1: Content, d2: Content, src: Content, tags: seq<Tag>)
    requires Between(d0, d1, src, tags) && Between(d1, d2, src, tags)
    ensures Between(d0, d2, src, tags)
  {
  }

  /** An attempt that goes on from `d1`, which an earlier one has left, and gets to `d2`: together they have
      not strayed from the way from `d0`, and lead to the same end. */
  lemma AttemptsJoin(past: seq<Content>, history: seq<Content>, from: nat, d0: Content, d1: Content, d2: Content,
                     src: Content, tags: seq<Tag>)
    requires past <= history && from <= |past|
    requires Between(d0, d1, src, tags) && forall i | from <= i < |past| :: Between(d0, past[i], src, tags)
    requires Between(d1, d2, src, tags) && forall i | |past| <= i < |history| :: Between(d1, history[i], src, tags)
    ensures Between(d0, d2, src, tags) && Replicated(d1, src, tags) == Replicated(d0, src, tags)
    ensures forall i | from <= i < |history| :: Between(d0, history[i], src, tags)
  {
    hide Between, Replicated;
    BetweenIsTransitive(d0, d1, d2, src, tags);
    PartialWorkIsAbsorbed(d0, d1, src, tags);
    forall i | from <= i < |history| ensures Between(d0, history[i], src, tags) {
      if i < |past| { assert history[i] == past[i]; } else { BetweenIsTransitive(d0, d1, history[i], src, tags); }
    }
  }

  lemma AllAreAbsorbed(history: seq<Content>, from: nat, d0: Content, src: Content, tags: seq<Tag>)
    requires from <= |history| && forall i | from <= i < |history| :: Between(d0, history[i], src, tags)
    ensures forall i | from <= i < |history| :: Replicated(history[i], src, tags) == Replicated(d0, src, tags)
  {
    hide Between, Replicated;
    forall i | from <= i < |history| ensures Replicated(history[i], src, tags) == Replicated(d0, src, tags) {
      PartialWorkIsAbsorbed(d0, history[i], src, tags);
    }
  }

  predicate SameTags(src: Content, tags: seq<Tag>, tags': seq<Tag>) {
    forall t | t in src.tags :: t in tags <==> t in tags'
  }

  /** Only which tags of the source are listed matters. */
  lemma SameTagsSameResult(d: Content, src: Content, tags: seq<Tag>, tags': seq<Tag>)
    requires SameTags(src, tags, tags')
    ensures Replicated(d, src, tags) == Replicated(d, src, tags')
    ensures forall d' :: Between(d, d', src, tags) <==> Between(d, d', src, tags')
  {
    assert BlobsOf(src, tags) == BlobsOf(src, tags');
  }

  /** Any number of partial attempts, then a finished one: the same destination as one
      uninterrupted finished run from the start. */
  lemma {:induction false} AttemptsConverge(ds: seq<Content>, final: Content, src: Content, tags: seq<Tag>)
    requires |ds| > 0
    requires forall i | 0 < i < |ds| :: Between(ds[i - 1], ds[i], src, tags)
    requires final == Replicated(ds[|ds| - 1], src, tags)
    ensures final == Replicated(ds[0], src, tags)
  {
    if |ds| > 1 {
      var n := |ds| - 1;
      PartialWorkIsAbsorbed(ds[n - 1], ds[n], src, tags);
      assert forall i | 0 < i < n :: Between(ds[..n][i - 1], ds[..n][i], src, tags);
      AttemptsConverge(ds[..n], final, src, tags);
    }
  }

  /** A finished replication of a closed source into a closed destination is closed. */
  lemma ReplicatedIsClosed(d: Content, src: Content, tags: seq<Tag>)
    requires Closed(d)
    ensures Closed(Replicated(d, src, tags))
  {
    var r := Replicated(d, src, tags);
    forall t | t in r.tags ensures Complete(r, r.tags[t]) {
      if t in tags && t in src.tags {
        assert forall b | b in Blobs(src.tags[t]) :: b in BlobsOf(src, tags);
      }
    }
  }

  /** The failure of a call, if any. */
  function Fault(failure: Option<Err>): seq<Err> {
    if failure.Some? then [failure.value] else []
  }

  function Loss<T>(r: Reply<T>): seq<Err> {
    if r.Lost? then [r.err] else []
  }

  /** Chooses the fate of a remote call. */
  method Weather() returns (failure: Option<Err>)
    ensures failure.None? || failure.value in {NetworkErr, OtherErr}
  {
    var good: bool := *;
    var network: bool := *;
    failure := if good then None else Some(if network then NetworkErr else OtherErr);
  }

  /** The registry a job reads from. When it is not `quiet` others change it at will
      between any two calls. */
  class Source {
    const quiet: bool
    var content: Content
    /** The failures of the calls made to it, in order. */
    ghost var faults: seq<Err>

    constructor (c: Content, quiet: bool)
      ensures content == c && this.quiet == quiet
    {
      content, this.quiet, faults := c, quiet, [];
    }

    twostate predicate Steady()
      reads this
    {
      quiet ==> content == old(content)
    }

    method Others()
      modifies this`content
      ensures Steady()
    {
      if !quiet {
        var c: Content := *;
        content := c;
      }
    }

    /** Creates a client for it. */
    method Connect() returns (failure: Option<Err>)
      modifies this`faults
      ensures faults == old(faults) + Fault(failure)
      ensures failure.None? || failure.value in {NetworkErr, OtherErr}
    {
      failure := Weather();
      faults := faults + Fault(failure);
    }

    method ListTag() returns (r: Reply<seq<Tag>>)
      modifies this
      ensures Steady() && faults == old(faults) + Loss(r)
      ensures r.Got? ==> forall t :: t in r.value <==> t in content.tags
      ensures r.Lost? ==> r.err in {NetworkErr, OtherErr}
    {
      Others();
      var f := Weather();
      faults := faults + Fault(f);
      if f.Some? { return Lost(f.value); }
      var tags := Listing(content.tags.Keys);
      r := Got(tags);
    }

    method PullManifest(t: Tag) returns (r: Reply<Manifest>)
      modifies this
      ensures Steady() && faults == old(faults) + Loss(r)
      ensures r.Got? ==> t in content.tags && r.value == content.tags[t]
      ensures r.Lost? ==> r.err in {NetworkErr, OtherErr}
    {
      Others();
      var f := Weather();
      r := if f.Some? then Lost(f.value) else if t in content.tags then Got(content.tags[t]) else Lost(OtherErr);
      faults := faults + Loss(r);
    }

    method ManifestExist(t: Tag) returns (r: Reply<bool>)
      modifies this
      ensures Steady() && faults == old(faults) + Loss(r)
      ensures r.Got? ==> r.value == (t in content.tags)
      ensures r.Lost? ==> r.err in {NetworkErr, OtherErr}
    {
      Others();
      var f := Weather();
      r := if f.Some? then Lost(f.value) else Got(t in content.tags);
      faults := faults + Loss(r);
    }

    method PullBlob(b: Digest) returns (failure: Option<Err>)
      modifies this
      ensures Steady() && faults == old(faults) + Fault(failure)
      ensures failure.None? || failure.value in {NetworkErr, OtherErr}
    {
      Others();
      failure := Weather();
      faults := faults + Fault(failure);
    }
  }

  /** The registry a job writes to. `history` is every content it ever had, so a job that is
      cut short anywhere leaves one of these. Writes that report an error may have happened.
      When the registry is not `quiet` others write to it too, but never drop a blob and never
      publish a manifest whose blobs are missing. */
  class Destination {
    const quiet: bool
    var content: Content
    ghost var history: seq<Content>
    /** What it has answered to the requests to create the project. */
    ghost var answers: seq<Reply<bool>>
    /** The failures of the calls made to it, in order, but for those of ManifestExist, which nobody minds. */
    ghost var faults: seq<Err>

    constructor (c: Content, quiet: bool)
      ensures content == c && this.quiet == quiet && Valid()
      ensures Closed(c) ==> AlwaysClosed()
    {
      content, this.quiet, history, answers, faults := c, quiet, [c], [], [];
    }

    ghost predicate Valid()
      reads this
    {
      |history| > 0 && history[|history| - 1] == content
    }

    ghost predicate AlwaysClosed()
      reads this
    {
      Valid() && forall i | 0 <= i < |history| :: Closed(history[i])
    }

    twostate predicate AlwaysClosedStays()
      reads this
    {
      old(AlwaysClosed()) ==> AlwaysClosed()
    }

    /** What every call keeps. */
    twostate predicate Grown()
      reads this
    {
      && (old(Valid()) ==> Valid() && old(history) <= history)
      && old(content.blobs) <= content.blobs
      && (old(AlwaysClosed()) ==> AlwaysClosed())
    }

    /** What a call that writes nothing keeps. */
    twostate predicate Kept()
      reads this
    {
      Grown() && (quiet ==> content == old(content) && history == old(history))
    }

    /** At most one write of ours, which the history has. */
    twostate predicate WroteOnce()
      reads this
    {
      quiet ==> (content == old(content) && history == old(history)) || history == old(history) + [content]
    }

    /** Every content it has had since the `from`-th one lies on the way from `d0` to the replicated state. */
    ghost predicate BetweenSince(from: nat, d0: Content, src: Content, tags: seq<Tag>)
      reads this
    {
      from <= |history| && forall i | from <= i < |history| :: Between(d0, history[i], src, tags)
    }

    method Others()
      modifies this`content, this`history
      ensures Kept()
    {
      if !quiet {
        var c: Content := *;
        if content.blobs <= c.blobs && (Closed(content) ==> Closed(c)) {
          content := c;
          history := history + [c];
        }
      }
    }

    method Write(c: Content)
      requires content.blobs <= c.blobs
      modifies this`content, this`history
      ensures content == c && history == old(history) + [c]
      ensures old(Valid()) ==> Valid()
      ensures old(AlwaysClosed()) && Closed(c) ==> AlwaysClosed()
    {
      content := c;
      history := history + [c];
    }

    /** Creates a client for it. */
    method Connect() returns (failure: Option<Err>)
      modifies this`faults
      ensures faults == old(faults) + Fault(failure)
      ensures failure.None? || failure.value in {NetworkErr, OtherErr}
    {
      failure := Weather();
      faults := faults + Fault(failure);
    }

    method BlobExist(b: Digest) returns (r: Reply<bool>)
      modifies this
      ensures Kept() && faults == old(faults) + Loss(r)
      ensures r.Got? ==> r.value == (b in content.blobs)
      ensures r.Lost? ==> r.err in {NetworkErr, OtherErr}
    {
      Others();
      var f := Weather();
      r := if f.Some? then Lost(f.value) else Got(b in content.blobs);
      faults := faults + Loss(r);
    }

    method PushBlob(b: Digest) returns (failure: Option<Err>)
      modifies this
      ensures Grown() && WroteOnce() && faults == old(faults) + Fault(failure)
      ensures quiet ==> content == old(content) || content == old(content).(blobs := old(content).blobs + {b})
      ensures failure.None? ==> b in content.blobs
      ensures failure.Some? ==> failure.value in {NetworkErr, OtherErr}
    {
      Others();
      failure := Weather();
      var happened: bool := *;
      if happened || failure.None? {
        assert Closed(content) ==> Closed(content.(blobs := content.blobs + {b}));
        Write(content.(blobs := content.blobs + {b}));
      }
      faults := faults + Fault(failure);
    }

    method ManifestExist(t: Tag) returns (r: Reply<ManifestDigest>)
      modifies this`content, this`history
      ensures Kept()
      ensures r.Got? ==> r.value == if t in content.tags then DigestOf(content.tags[t]) else NoDigest
    {
      Others();
      var f := Weather();
      r := if f.Some? then Lost(f.value)
           else Got(if t in content.tags then DigestOf(content.tags[t]) else NoDigest);
    }

    /** The registry itself checks nothing: closure is up to the caller. */
    method PushManifest(t: Tag, m: Manifest) returns (failure: Option<Err>)
      modifies this
      ensures old(Valid()) ==> Valid() && old(history) <= history
      ensures WroteOnce() && faults == old(faults) + Fault(failure)
      ensures old(content.blobs) <= content.blobs
      ensures old(AlwaysClosed()) && Complete(old(content), m) ==> AlwaysClosed()
      ensures quiet ==> content == old(content) || content == old(content).(tags := old(content).tags[t := m])
      ensures quiet && failure.None? ==> content == old(content).(tags := old(content).tags[t := m])
      ensures failure.Some? ==> failure.value in {NetworkErr, OtherErr}
    {
      Others();
      failure := Weather();
      var happened: bool := *;
      if happened || failure.None? {
        Write(content.(tags := content.tags[t := m]));
      }
      faults := faults + Fault(failure);
    }

    /** Creating the project answers ok (`Got(true)`), conflict (`Got(false)`) or an error. */
    method CreateProject() returns (r: Reply<bool>)
      modifies this
      ensures Kept() && answers == old(answers) + [r] && faults == old(faults) + Loss(r)
      ensures r.Lost? ==> r.err in {NetworkErr, OtherErr}
    {
      Others();
      var f := Weather();
      var created: bool := *;
      r := if f.Some? then Lost(f.value) else Got(created);
      answers, faults := answers + [r], faults + Loss(r);
    }

    /** Deletes the manifest of a tag, and with it every tag that has the same one. `Got(false)` is the
        answer not-found. */
    method DeleteTag(t: Tag) returns (r: Reply<bool>)
      modifies this`content, this`history
      ensures Grown()
      ensures quiet ==> content == old(content) || content == WithoutTag(old(content), t)
      ensures quiet && r.Got? ==> content == WithoutTag(old(content), t) && r.value == (t in old(content).tags)
      ensures r.Lost? ==> r.err in {NetworkErr, OtherErr}
    {
      Others();
      var f := Weather();
      if t !in content.tags {
        return if f.Some? then Lost(f.value) else Got(false);
      }
      var m := content.tags[t];
      Others();
      var happened: bool := *;
      if happened || f.None? {
        Write(Unserved(content, m));
      }
      r := if f.Some? then Lost(f.value) else Got(true);
    }

    /** Lists the tags and deletes one after the other; a tag that has gone meanwhile is no failure,
        anything else ends it half done. */
    method DeleteRepository() returns (r: Reply<bool>)
      modifies this`content, this`history
      ensures Grown()
      ensures quiet ==> DeletedPartly(old(content), content, [])
      ensures quiet && r.Got? ==> content == Deleted(old(content), [])
      ensures r.Lost? ==> r.err in {NetworkErr, OtherErr}
    {
      hide Closed, DeletedPartly, Cleared, WithoutTag;
      Others();
      var f := Weather();
      ghost var d := content;
      ClearedPartly(d, [], []);
      if f.Some? { return Lost(f.value); }
      var list := Listing(content.tags.Keys);
      for i := 0 to |list|
        invariant Grown() && (quiet ==> d == old(content) && content == Cleared(d, list[..i]))
      {
        r := DeleteTag(list[i]);
        assert list[..i + 1] == list[..i] + [list[i]];
        ClearOne(d, list[..i], list[i]);
        ClearedPartly(d, list[..i], []);
        ClearedPartly(d, list[..i + 1], []);
        if r.Lost? { return r; }
      }
      assert list[..|list|] == list;
      ClearedPartly(d, list, []);
      ClearedAll(d, list);
      f := Weather();
      r := if f.Some? then Lost(f.value) else Got(list != []);
    }

    /** Deletes one tag, or with `None` the whole repository. */
    method Delete(which: Option<Tag>) returns (r: Reply<bool>)
      modifies this
      ensures Grown() && faults == old(faults) + Loss(r)
      ensures quiet && which.Some? ==> content == old(content) || content == WithoutTag(old(content), which.value)
      ensures quiet && which.Some? && r.Got? ==> content == WithoutTag(old(content), which.value)
      ensures quiet && which.None? ==> DeletedPartly(old(content), content, [])
      ensures quiet && which.None? && r.Got? ==> content == Deleted(old(content), [])
      ensures r.Lost? ==> r.err in {NetworkErr, OtherErr}
    {
      if which.Some? { r := DeleteTag(which.value); } else { r := DeleteRepository(); }
      faults := faults + Loss(r);
    }
  }

  method Listing(s: set<Tag>) returns (list: seq<Tag>)
    ensures forall t :: t in list <==> t in s
  {
    list := [];
    var rest := s;
    while rest != {}
      invariant forall t :: t in s <==> t in rest || t in list
      decreases rest
    {
      var t :| t in rest;
      list, rest := list + [t], rest - {t};
    }
  }

  /** The manifest is gone, and all its tags. */
  function Unserved(c: Content, m: Manifest): (r: Content)
    ensures Closed(c) ==> Closed(r)
  {
    c.(tags := map t | t in c.tags && c.tags[t] != m :: c.tags[t])
  }

  function WithoutTag(c: Content, t: Tag): Content {
    if t in c.tags then Unserved(c, c.tags[t]) else c
  }

  /** The tag has the manifest of one of these. */
  predicate Shares(c: Content, u: Tag, tags: seq<Tag>) {
    u in c.tags && exists t | t in tags :: t in c.tags && c.tags[t] == c.tags[u]
  }

  /** All tags that share a manifest with one of these are gone. */
  function Cleared(c: Content, tags: seq<Tag>): Content {
    c.(tags := map u | u in c.tags && !Shares(c, u, tags) :: c.tags[u])
  }

  function Deleted(c: Content, tags: seq<Tag>): Content {
    if tags == [] then c.(tags := map[]) else Cleared(c, tags)
  }

  /** Some of the manifests to delete are gone, each with all its tags, and nothing else has changed. */
  predicate DeletedPartly(c: Content, c': Content, tags: seq<Tag>) {
    && c'.blobs == c.blobs && c'.tags.Keys <= c.tags.Keys
    && (forall u | u in c.tags :: if u in c'.tags then c'.tags[u] == c.tags[u] else tags == [] || Shares(c, u, tags))
    && forall u, v | u in c.tags && v in c.tags && c.tags[u] == c.tags[v] :: u in c'.tags <==> v in c'.tags
  }

  lemma ClearOne(c: Content, tags: seq<Tag>, t: Tag)
    ensures WithoutTag(Cleared(c, tags), t) == Cleared(c, tags + [t])
  {
    var d, d' := Cleared(c, tags), WithoutTag(Cleared(c, tags), t);
    forall u ensures u in d'.tags <==> u in Cleared(c, tags + [t]).tags {
      assert u in c.tags ==>
        (Shares(c, u, tags + [t]) <==> Shares(c, u, tags) || (t in c.tags && c.tags[t] == c.tags[u]));
    }
    assert d'.tags == Cleared(c, tags + [t]).tags;
  }

  lemma ClearedPartly(c: Content, done: seq<Tag>, tags: seq<Tag>)
    requires tags == [] || forall t | t in done :: t in tags
    ensures DeletedPartly(c, Cleared(c, done), tags)
    ensures done == [] ==> Cleared(c, done) == c
  {
    forall u | u in c.tags && Shares(c, u, done) && tags != [] ensures Shares(c, u, tags) {
      var t :| t in done && t in c.tags && c.tags[t] == c.tags[u];
    }
    if done == [] { assert Cleared(c, done).tags == c.tags; }
  }

  lemma ClearedAll(c: Content, tags: seq<Tag>)
    requires forall t | t in c.tags :: t in tags
    ensures Cleared(c, tags) == Deleted(c, [])
  {
    assert forall u | u in c.tags :: Shares(c, u, tags);
  }

  /** Exactly the listed tags go if and only if every tag that shares a manifest with one is listed, too. */
  lemma DeletesOnlyListed(c: Content, tags: seq<Tag>)
    requires tags != []
    ensures Deleted(c, tags).tags == c.tags - (set t | t in tags) <==> forall u | Shares(c, u, tags) :: u in tags
  {
    var r := Deleted(c, tags).tags;
    forall u | u in c.tags && u in tags ensures Shares(c, u, tags) {}
    if r == c.tags - (set t | t in tags) {
      forall u | Shares(c, u, tags) ensures u in tags { assert u !in r; }
    }
  }

  /** A tag that is not listed goes with a listed one of the same manifest. */
  lemma DeletesUnlisted(m: Manifest, blobs: set<Digest>)
    ensures Deleted(Content(map["1.0" := m, "latest" := m], blobs), ["1.0"]).tags == map[]
  {
    var c := Content(map["1.0" := m, "latest" := m], blobs);
    assert "1.0" in c.tags && c.tags["1.0"] == m;
    forall u | u in c.tags ensures Shares(c, u, ["1.0"]) { assert "1.0" in ["1.0"]; }
  }

  lemma SharesStill(c: Content, d: Content, tags: seq<Tag>, u: Tag)
    requires DeletedPartly(c, d, tags) && tags != []
    ensures u in Cleared(d, tags).tags <==> u in Cleared(c, tags).tags
    ensures u in Cleared(d, tags).tags ==> Cleared(d, tags).tags[u] == Cleared(c, tags).tags[u]
  {
    if u in d.tags && Shares(c, u, tags) {
      var t :| t in tags && t in c.tags && c.tags[t] == c.tags[u];
      assert t in d.tags;
    }
  }

  /** A deletion that was cut short and one that is finished later leave what one finished at once would. */
  lemma PartialDeletionIsAbsorbed(c: Content, d: Content, tags: seq<Tag>)
    requires DeletedPartly(c, d, tags)
    ensures Deleted(d, tags) == Deleted(c, tags)
  {
    hide DeletedPartly, Cleared, Shares;
    SameBlobs(c, d, tags);
    if tags != [] {
      var after, whole := Cleared(d, tags).tags, Cleared(c, tags).tags;
      forall u ensures u in after <==> u in whole
               ensures u in after ==> after[u] == whole[u]
      {
        SharesStill(c, d, tags, u);
      }
      assert after == whole;
    }
  }

  lemma SameBlobs(c: Content, d: Content, tags: seq<Tag>)
    requires DeletedPartly(c, d, tags)
    ensures d.blobs == c.blobs && Cleared(d, tags).blobs == Cleared(c, tags).blobs
  {
  }
}
