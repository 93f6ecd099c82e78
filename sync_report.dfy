/**
 * The report the external sync engine returns, and the extraction of the
 * failed hunks from one of its patches (`filter_map` over `(hunk, err)`).
 */
module SyncReport {
  import opened Wrappers

  /** A folder-level change planned by the engine; its contents are not inspected here. */
  type FolderHunk(==)
  /** An envelope-level change planned by the engine. */
  type EnvelopeHunk(==)
  /** The error a hunk or a cache commit failed with. */
  type SyncError(==)

  /** A patch is an ordered list of hunks, each with its outcome. */
  type Patch<H> = seq<(H, Option<SyncError>)>

  /** The outcome of committing a cache patch; its own hunks are not read by the command. */
  datatype CacheCommit = CacheCommit(error: Option<SyncError>)

  datatype Report = Report(
    foldersPatch: Patch<FolderHunk>,
    foldersCachePatch: CacheCommit,
    emailsPatch: Patch<EnvelopeHunk>,
    emailsCachePatch: CacheCommit)

  /** The failed pairs of a patch with their errors unwrapped, in patch order. */
  function FailedHunks<H>(p: Patch<H>): (r: seq<(H, SyncError)>)
    ensures |r| <= |p|
  {
    if p == [] then []
    else
      var last := p[|p| - 1];
      FailedHunks(p[..|p| - 1]) + (if last.1.Some? then [(last.0, last.1.value)] else [])
  }

  /** The positions of the failed pairs of a patch, in increasing order. */
  function FailedIndices<H>(p: Patch<H>): (r: seq<nat>)
    ensures forall k :: 0 <= k < |r| ==> r[k] < |p|
  {
    if p == [] then []
    else FailedIndices(p[..|p| - 1]) + (if p[|p| - 1].1.Some? then [|p| - 1] else [])
  }

  /**
   * FailedHunks keeps exactly the pairs whose outcome is an error, and keeps
   * them in the order of the patch: its k-th element is the pair at the k-th
   * failed position, positions increase, and every failed position is listed.
   */
  lemma {:induction false} FailedHunksSelectsFailures<H>(p: Patch<H>)
    ensures |FailedIndices(p)| == |FailedHunks(p)|
    ensures forall k :: 0 <= k < |FailedIndices(p)| ==>
      p[FailedIndices(p)[k]] == (FailedHunks(p)[k].0, Some(FailedHunks(p)[k].1))
    ensures forall k, l :: 0 <= k < l < |FailedIndices(p)| ==> FailedIndices(p)[k] < FailedIndices(p)[l]
    ensures forall i :: 0 <= i < |p| ==> (p[i].1.Some? <==> i in FailedIndices(p))
  {
    if p != [] {
      var init := p[..|p| - 1];
      FailedHunksSelectsFailures(init);
      assert forall i :: 0 <= i < |init| ==> p[i] == init[i];
    }
  }

  /** Extraction distributes over concatenation, so no pair moves across another. */
  lemma {:induction false} FailedHunksAppend<H>(a: Patch<H>, b: Patch<H>)
    ensures FailedHunks(a + b) == FailedHunks(a) + FailedHunks(b)
  {
    if b != [] {
      var b' := b[..|b| - 1];
      assert (a + b)[..|a + b| - 1] == a + b';
      FailedHunksAppend(a, b');
    } else {
      assert a + b == a;
    }
  }

  /** The listing is empty exactly when no hunk of the patch failed. */
  lemma {:induction false} FailedHunksEmptyIff<H>(p: Patch<H>)
    ensures FailedHunks(p) == [] <==> forall i :: 0 <= i < |p| ==> p[i].1.None?
  {
    FailedHunksSelectsFailures(p);
    if i :| 0 <= i < |p| && p[i].1.Some? {
      assert i in FailedIndices(p);
    }
    if FailedHunks(p) != [] {
      assert p[FailedIndices(p)[0]].1.Some?;
    }
  }

  /** A pair is listed exactly when some position of the patch holds that hunk with that error. */
  lemma FailedHunksMembership<H>(p: Patch<H>, h: H, e: SyncError)
    ensures (h, e) in FailedHunks(p) <==> exists i :: 0 <= i < |p| && p[i] == (h, Some(e))
  {
    FailedHunksSelectsFailures(p);
    var idx := FailedIndices(p);
    if (h, e) in FailedHunks(p) {
      var k :| 0 <= k < |FailedHunks(p)| && FailedHunks(p)[k] == (h, e);
      assert p[idx[k]] == (h, Some(e));
    }
    if i :| 0 <= i < |p| && p[i] == (h, Some(e)) {
      assert i in idx;
      var k :| 0 <= k < |idx| && idx[k] == i;
      assert FailedHunks(p)[k] == (h, e);
    }
  }
}
