/** The handlers of a transfer job, which share one mutable `BaseHandler`, and of a delete job. */
module TransferHandlers {
  import opened States
  import opened Registry

  function FailureOf(o: Outcome): Option<Err> {
    if o.Fail? then Some(o.err) else None
  }

  class BaseHandler {
    const source: Source
    const destination: Destination

    /** Whether both registry clients have been created. */
    var connected: bool
    /** The tags still to do; the first one is in work. */
    var tags: seq<Tag>
    var manifest: Option<Manifest>
    var digest: ManifestDigest
    /** Blobs to be transferred for the first tag. */
    var blobs: seq<Digest>
    /** What is known about blobs at the destination, carried from tag to tag. */
    var blobsExistence: map<Digest, bool>
    /** The tag list fixed by `Initialize`. */
    ghost var fixed: seq<Tag>
    /** The failures that are none of the registries: of a row, of parsing or encoding a manifest. */
    ghost var faults: seq<Err>

    constructor (source: Source, destination: Destination, tags: seq<Tag>)
      ensures this.source == source && this.destination == destination && this.tags == tags
      ensures Fresh()
    {
      this.source, this.destination, this.tags := source, destination, tags;
      connected, manifest, digest, blobs, blobsExistence, fixed := false, None, NoDigest, [], map[], [];
      faults := [];
    }

    ghost predicate Idle()
      reads this
    {
      manifest.None? && digest.NoDigest? && blobs == []
    }

    ghost predicate Unconnected()
      reads this
    {
      !connected && Idle() && blobsExistence == map[] && fixed == []
    }

    ghost predicate Fresh()
      reads this
    {
      Unconnected() && faults == []
    }

    /** A cached `true` is right. A cached `false` may be stale, which only costs a push. */
    ghost predicate CacheRight()
      reads this, destination
    {
      forall b | b in blobsExistence && blobsExistence[b] :: b in destination.content.blobs
    }

    ghost predicate InWork()
      reads this
    {
      connected && tags != [] && manifest.Some? && digest == DigestOf(manifest.value)
    }

    /** Missing blobs are in the worklist, and the worklist is made of blobs of the manifest. */
    ghost predicate Loaded()
      reads this, destination
    {
      && InWork()
      && (forall b | b in Blobs(manifest.value) :: b in blobs || b in destination.content.blobs)
      && (forall b | b in blobs :: b in Blobs(manifest.value))
    }

    ghost predicate Shipped()
      reads this, destination
    {
      InWork() && Complete(destination.content, manifest.value)
    }

    ghost predicate Alone() {
      source.quiet && destination.quiet
    }

    /** The manifest in work is the source's one for the first tag. */
    ghost predicate FromSource()
      reads this, source
    {
      source.quiet && tags != [] && manifest.Some? ==>
        tags[0] in source.content.tags && manifest.value == source.content.tags[tags[0]]
    }

    /** How far the job has come from the destination content `d0`, when nobody else writes: the tags
        done are copied and nothing else has changed but some blobs of listed tags. That nothing else
        changes has been so all the time, from the `from`-th content of the destination on. */
    ghost predicate Progress(d0: Content, from: nat)
      reads this, source, destination
    {
      && |tags| <= |fixed| && tags == fixed[|fixed| - |tags|..]
      && (Alone() ==>
            && Advanced(d0, destination.content, source.content, fixed, |fixed| - |tags|)
            && destination.BetweenSince(from, d0, source.content, fixed))
    }

    /** The one failure of what was done is `failure`, or there is none. */
    twostate predicate Blamed(new failure: Option<Err>)
      reads this, source, destination
    {
      || (failure.None? && faults == old(faults) && source.faults == old(source.faults)
          && destination.faults == old(destination.faults))
      || (failure.Some? && faults == old(faults) + [failure.value] && source.faults == old(source.faults)
          && destination.faults == old(destination.faults))
      || (failure.Some? && faults == old(faults) && source.faults == old(source.faults) + [failure.value]
          && destination.faults == old(destination.faults))
      || (failure.Some? && faults == old(faults) && source.faults == old(source.faults)
          && destination.faults == old(destination.faults) + [failure.value])
    }

    /** Creates both clients and fixes the tag list. */
    method Initialize() returns (o: Outcome)
      requires Fresh()
      modifies this, source, destination
      ensures source.Steady() && destination.Kept() && Idle() && blobsExistence == map[]
      ensures o.Go? ==> o.next == Check && connected && fixed == tags
      ensures o.Go? && old(tags) != [] ==> tags == old(tags)
      ensures o.Go? && old(tags) == [] ==> forall t :: t in tags <==> t in source.content.tags
      ensures o.Fail? ==> o.err in {NetworkErr, OtherErr} && Unconnected() && tags == old(tags)
      ensures Blamed(FailureOf(o))
    {
      var f := source.Connect();
      if f.Some? { return Fail(f.value); }
      f := destination.Connect();
      if f.Some? { return Fail(f.value); }
      if |tags| == 0 {
        var r := source.ListTag();
        if r.Lost? { return Fail(r.err); }
        tags := r.value;
      }
      connected, fixed := true, tags;
      return Go(Check);
    }

    /** Creates the project at the destination, after a look at its own row, which may fail; a conflict
        means it is there already. */
    method CheckProject(known: bool) returns (o: Outcome)
      requires connected
      modifies this`faults, destination
      ensures destination.Kept() && Blamed(FailureOf(o))
      ensures !known ==> o == Fail(OtherErr) && destination.answers == old(destination.answers)
      ensures known ==>
        && |destination.answers| == |old(destination.answers)| + 1 && old(destination.answers) <= destination.answers
        && var r := destination.answers[|old(destination.answers)|];
           o == if r.Got? then Go(State.PullManifest) else Fail(r.err)
      ensures if o.Go? then o.next == State.PullManifest else o.err in {NetworkErr, OtherErr}
    {
      if !known {
        faults := faults + [OtherErr];
        return Fail(OtherErr);
      }
      var r := destination.CreateProject();
      return if r.Lost? then Fail(r.err) else Go(State.PullManifest);
    }

    method PullManifest() returns (o: Outcome)
      requires connected && Idle() && CacheRight()
      modifies this, source, destination
      ensures source.Steady() && destination.Kept() && CacheRight() && Blamed(FailureOf(o))
      ensures connected && tags == old(tags) && fixed == old(fixed)
      ensures o.Go? ==> o.next == if tags == [] then Finished else State.TransferBlob
      ensures o == Go(Finished) ==> Idle()
      ensures o == Go(State.TransferBlob) ==> Loaded() && FromSource()
      ensures o.Fail? ==> tags != [] && o.err in {NetworkErr, OtherErr}
    {
      if |tags| == 0 { return Go(Finished); }
      var r := source.PullManifest(tags[0]);
      if r.Lost? { return Fail(r.err); }
      digest := DigestOf(r.value);
      var parsed: bool := *;
      if !parsed {
        faults := faults + [OtherErr];
        return Fail(OtherErr);
      }
      manifest := Some(r.value);
      var f := ListMissing(Blobs(r.value));
      return if f.Some? then Fail(f.value) else Go(State.TransferBlob);
    }

    /** Puts the blobs of the manifest that the destination lacks on the worklist; the answer
        for a blob is asked once and then remembered. */
    method ListMissing(all: seq<Digest>) returns (failure: Option<Err>)
      requires CacheRight() && blobs == []
      modifies this`blobs, this`blobsExistence, destination
      ensures destination.Kept() && CacheRight() && destination.faults == old(destination.faults) + Fault(failure)
      ensures forall b | b in blobs :: b in all
      ensures failure.None? ==> forall b | b in all :: b in blobs || b in destination.content.blobs
      ensures failure.Some? ==> failure.value in {NetworkErr, OtherErr}
      ensures forall b | b in old(blobsExistence) ::
        b in blobsExistence && blobsExistence[b] == old(blobsExistence)[b]
      ensures forall b | b in blobsExistence && b !in old(blobsExistence) ::
        b in all && (destination.quiet ==> (blobsExistence[b] <==> b in destination.content.blobs))
      ensures failure.None? ==> forall b | b in all :: b in blobsExistence && (b in blobs <==> !blobsExistence[b])
    {
      for i := 0 to |all|
        invariant destination.Kept() && CacheRight() && destination.faults == old(destination.faults)
        invariant forall k | 0 <= k < i :: all[k] in blobs || all[k] in destination.content.blobs
        invariant forall b | b in blobs :: b in all && b in blobsExistence && !blobsExistence[b]
        invariant forall k | 0 <= k < i ::
          all[k] in blobsExistence && (all[k] in blobs <==> !blobsExistence[all[k]])
        invariant forall b | b in old(blobsExistence) ::
          b in blobsExistence && blobsExistence[b] == old(blobsExistence)[b]
        invariant forall b | b in blobsExistence && b !in old(blobsExistence) ::
          b in all && (destination.quiet ==> (blobsExistence[b] <==> b in destination.content.blobs))
      {
        var blob, exist := all[i], false;
        if blob in blobsExistence {
          exist := blobsExistence[blob];
        } else {
          var e := destination.BlobExist(blob);
          if e.Lost? { return Some(e.err); }
          exist := e.value;
          blobsExistence := blobsExistence[blob := exist];
        }
        if !exist { blobs := blobs + [blob]; }
      }
      failure := None;
    }

    /** Copies one blob of the manifest in work. */
    method Ship(b: Digest, ghost d0: Content, ghost from: nat) returns (failure: Option<Err>)
      requires InWork() && b in Blobs(manifest.value) && FromSource() && CacheRight() && Progress(d0, from)
      modifies source, destination
      ensures source.Steady() && destination.Grown() && CacheRight() && Progress(d0, from) && FromSource()
      ensures Blamed(failure)
      ensures destination.quiet ==> OnlyBlobsFrom(old(destination.content), destination.content, manifest.value)
      ensures failure.None? ==> b in destination.content.blobs
      ensures failure.Some? ==> failure.value in {NetworkErr, OtherErr}
    {
      hide Copied, Closed;
      failure := source.PullBlob(b);
      if failure.Some? { return failure; }
      ghost var d := destination.content;
      failure := destination.PushBlob(b);
      if Alone() { BlobsKeepAdvanced(d0, d, destination.content, source.content, fixed, |fixed| - |tags|); }
    }

    method TransferBlob(ghost d0: Content, ghost from: nat) returns (o: Outcome)
      requires Loaded() && FromSource() && CacheRight() && Progress(d0, from)
      modifies source, destination
      ensures source.Steady() && destination.Grown() && CacheRight()
      ensures Progress(d0, from) && FromSource() && Blamed(FailureOf(o))
      ensures destination.quiet ==> OnlyBlobsFrom(old(destination.content), destination.content, manifest.value)
      ensures if o.Go? then o.next == State.PushManifest && Shipped() else o.err in {NetworkErr, OtherErr}
    {
      hide Progress, FromSource, CacheRight, Closed;
      for i := 0 to |blobs|
        invariant source.Steady() && destination.Grown() && CacheRight()
        invariant forall k | 0 <= k < i :: blobs[k] in destination.content.blobs
        invariant Progress(d0, from) && FromSource() && Blamed(None)
        invariant destination.quiet ==> OnlyBlobsFrom(old(destination.content), destination.content, manifest.value)
      {
        var f := Ship(blobs[i], d0, from);
        if f.Some? { return Fail(f.value); }
      }
      return Go(State.PushManifest);
    }

    /** Pushes the manifest unless the destination has this very one; an error of the
        existence check is ignored. */
    method PublishManifest(tag: Tag) returns (failure: Option<Err>)
      requires Shipped()
      modifies this`faults, destination
      ensures Blamed(failure)
      ensures old(destination.Valid()) ==> destination.Valid() && old(destination.history) <= destination.history
      ensures old(destination.content.blobs) <= destination.content.blobs && destination.AlwaysClosedStays()
      ensures destination.WroteOnce()
      ensures destination.quiet ==>
        destination.content in {old(destination.content), WithTag(old(destination.content), tag, manifest.value)}
      ensures destination.quiet && failure.None? ==>
        destination.content == WithTag(old(destination.content), tag, manifest.value)
      ensures failure.Some? ==> failure.value in {NetworkErr, OtherErr}
    {
      var d := destination.ManifestExist(tag);
      if d == Got(digest) {
        assert destination.quiet ==> WithTag(destination.content, tag, manifest.value) == destination.content;
        return None;
      }
      var encoded: bool := *;
      if !encoded {
        faults := faults + [OtherErr];
        return Some(OtherErr);
      }
      failure := destination.PushManifest(tag, manifest.value);
    }

    /** Publishes the manifest unless the source has dropped the tag meanwhile. */
    method PublishTag(ghost d0: Content, ghost from: nat) returns (failure: Option<Err>)
      requires Shipped() && FromSource() && CacheRight() && Progress(d0, from)
      modifies this`faults, source, destination
      ensures source.Steady() && CacheRight() && Progress(d0, from) && Blamed(failure)
      ensures old(destination.Valid()) ==> destination.Valid() && old(destination.history) <= destination.history
      ensures old(destination.content.blobs) <= destination.content.blobs
      ensures old(destination.AlwaysClosed()) ==> destination.AlwaysClosed()
      ensures failure.None? && Alone() ==>
        Advanced(d0, destination.content, source.content, fixed, |fixed| - |tags| + 1)
      ensures failure.Some? ==> failure.value in {NetworkErr, OtherErr}
    {
      hide Advanced, Between, Closed, Complete, Blobs;
      if Alone() { PushKeepsAdvanced(d0, destination.content, source.content, fixed, |fixed| - |tags|); }
      var e := source.ManifestExist(tags[0]);
      if e.Lost? { return Some(e.err); }
      failure := None;
      if e.value { failure := PublishManifest(tags[0]); }
    }

    /** Done with the first tag. */
    method PushManifest(ghost d0: Content, ghost from: nat) returns (o: Outcome)
      requires Shipped() && FromSource() && CacheRight() && Progress(d0, from)
      modifies this, source, destination
      ensures source.Steady() && CacheRight() && Blamed(FailureOf(o))
      ensures old(destination.Valid()) ==> destination.Valid() && old(destination.history) <= destination.history
      ensures old(destination.content.blobs) <= destination.content.blobs
      ensures old(destination.AlwaysClosed()) ==> destination.AlwaysClosed()
      ensures connected && fixed == old(fixed)
      ensures Progress(d0, from)
      ensures o.Go? ==> o.next == State.PullManifest && Idle() && tags == old(tags)[1..]
      ensures o.Fail? ==> o.err in {NetworkErr, OtherErr} && tags == old(tags)
    {
      hide Advanced, Between, Closed, Complete, FromSource, Destination.BetweenSince, Destination.AlwaysClosed;
      var f := PublishTag(d0, from);
      if f.Some? { return Fail(f.value); }
      TailOfTail(fixed, tags);
      tags, manifest, digest, blobs := tags[1..], None, NoDigest, [];
      return Go(State.PullManifest);
    }
  }

  lemma TailOfTail(fixed: seq<Tag>, tags: seq<Tag>)
    requires 0 < |tags| <= |fixed| && tags == fixed[|fixed| - |tags|..]
    ensures tags[0] == fixed[|fixed| - |tags|] && tags[1..] == fixed[|fixed| - |tags[1..]|..]
  {
  }

  /** The handler of a delete job: the listed tags, or the whole repository. */
  class Deleter {
    const tags: seq<Tag>
    const destination: Destination

    constructor (tags: seq<Tag>, destination: Destination)
      ensures this.tags == tags && this.destination == destination
    {
      this.tags, this.destination := tags, destination;
    }

    method Enter() returns (o: Outcome)
      modifies destination
      ensures destination.Grown() && destination.faults == old(destination.faults) + Fault(FailureOf(o))
      ensures destination.quiet && o.Go? ==> destination.content == Deleted(old(destination.content), tags)
      ensures destination.quiet ==> DeletedPartly(old(destination.content), destination.content, tags)
      ensures if o.Go? then o.next == Finished else o.err in {NetworkErr, OtherErr}
    {
      hide Closed, Cleared, DeletedPartly;
      if |tags| == 0 {
        var r := destination.Delete(None);
        return if r.Lost? then Fail(r.err) else Go(Finished);
      }
      ghost var d := destination.content;
      ClearedPartly(d, [], tags);
      for i := 0 to |tags|
        invariant destination.Grown() && destination.faults == old(destination.faults)
        invariant destination.quiet ==> destination.content == Cleared(d, tags[..i])
      {
        var r := destination.Delete(Some(tags[i]));
        assert tags[..i + 1] == tags[..i] + [tags[i]];
        ClearOne(d, tags[..i], tags[i]);
        ClearedPartly(d, tags[..i], tags);
        ClearedPartly(d, tags[..i + 1], tags);
        if r.Lost? { return Fail(r.err); }
      }
      assert tags[..|tags|] == tags;
      ClearedPartly(d, tags, tags);
      return Go(Finished);
    }
  }
}
