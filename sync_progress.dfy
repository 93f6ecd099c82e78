/**
 * The progress bookkeeping of `account sync`: a main counter and one
 * sub-counter per folder, updated by the callback the sync engine invokes
 * once per progress event. Bars, styles and messages are left out; what is
 * kept is each bar's position, length and whether its done style was set.
 */
module SyncProgress {
  import opened Wrappers

  type FolderName = string

  const U64_MAX: nat := 0xFFFF_FFFF_FFFF_FFFF

  /** `n - 1` on a `u64`, as a release build computes it: subtraction modulo 2^64. */
  function WrappingPred(n: nat): (r: nat)
    requires n <= U64_MAX
    ensures r == (n - 1) % (U64_MAX + 1)
    ensures r <= U64_MAX
  {
    if n == 0 then U64_MAX else n - 1
  }

  /** A folder's bar: where it stands, how long it is, whether its done style was set. */
  datatype SubProgress = SubProgress(position: nat, length: nat, done: bool)

  /**
   * The events the callback distinguishes; every other event of the engine
   * is `OtherEvent`. Patches are given by their lengths, the only thing read.
   */
  datatype ProgressEvent =
    | ApplyFolderPatches
    | ApplyEnvelopePatches(patchLengths: map<FolderName, nat>)
    | ApplyEnvelopeHunk(folder: FolderName)
    | ApplyEnvelopeCachePatch
    | ExpungeFolders(folders: set<FolderName>)
    | OtherEvent

  datatype ProgressState = ProgressState(
    mainPosition: nat,
    mainLength: nat,
    subProgresses: map<FolderName, SubProgress>)

  /** The main bar is created with length 100 and forced to position 0; no folder bar yet. */
  const Initial: ProgressState := ProgressState(0, 100, map[])

  /** The sum of the patch lengths (the `fold` over the patches' lengths). */
  ghost function TotalLength(patches: map<FolderName, nat>): (r: nat)
    ensures forall f :: f in patches ==> patches[f] <= r
    ensures (forall f :: f in patches ==> patches[f] == 0) ==> r == 0
    decreases |patches|
  {
    if patches == map[] then 0
    else
      var f :| f in patches;
      assert |patches - {f}| < |patches| by { assert patches.Keys - {f} < patches.Keys; }
      assert forall g :: g in patches && g != f ==> g in patches - {f} && (patches - {f})[g] == patches[g];
      patches[f] + TotalLength(patches - {f})
  }

  /** The total does not depend on which folder is taken first. */
  lemma {:induction false} TotalLengthRemove(patches: map<FolderName, nat>, f: FolderName)
    requires f in patches
    ensures TotalLength(patches) == patches[f] + TotalLength(patches - {f})
    ensures patches[f] <= TotalLength(patches)
    decreases |patches|
  {
    var g :| g in patches && TotalLength(patches) == patches[g] + TotalLength(patches - {g});
    if g != f {
      assert |patches - {g}| < |patches| by { assert patches.Keys - {g} < patches.Keys; }
      assert |patches - {f}| < |patches| by { assert patches.Keys - {f} < patches.Keys; }
      TotalLengthRemove(patches - {g}, f);
      TotalLengthRemove(patches - {f}, g);
      assert patches - {g} - {f} == patches - {f} - {g};
    }
  }

  /** A fresh bar for every folder of the patches: position 0, the patch's length. */
  function FreshCounters(patches: map<FolderName, nat>): map<FolderName, SubProgress>
  {
    map f | f in patches :: SubProgress(0, patches[f], false)
  }

  /**
   * One hunk applied in a folder: its bar moves by one and takes the done
   * style when the new position equals its length minus one (the style
   * stays once set).
   */
  function Advance(c: SubProgress): SubProgress
    requires c.length <= U64_MAX
  {
    var position := c.position + 1;
    SubProgress(position, c.length, c.done || position == WrappingPred(c.length))
  }

  /** Lengths are `u64`; patch lengths beyond that are not modelled. */
  ghost predicate LengthsFit(s: ProgressState)
  {
    forall f :: f in s.subProgresses ==> s.subProgresses[f].length <= U64_MAX
  }

  ghost predicate EventFits(e: ProgressEvent)
  {
    e.ApplyEnvelopePatches? ==> forall f :: f in e.patchLengths ==> e.patchLengths[f] <= U64_MAX
  }

  /** What one callback invocation does to the bookkeeping. */
  ghost function Step(s: ProgressState, e: ProgressEvent): (r: ProgressState)
    requires LengthsFit(s) && EventFits(e)
    ensures LengthsFit(r)
  {
    match e
    case ApplyFolderPatches =>
      s.(mainPosition := s.mainPosition + 3)
    case ApplyEnvelopePatches(patches) =>
      var total := TotalLength(patches);
      ProgressState(5 * total / 100, 110 * total / 100, s.subProgresses + FreshCounters(patches))
    case ApplyEnvelopeHunk(folder) =>
      var subs := if folder in s.subProgresses
        then s.subProgresses[folder := Advance(s.subProgresses[folder])]
        else s.subProgresses;
      s.(mainPosition := s.mainPosition + 1, subProgresses := subs)
    case ApplyEnvelopeCachePatch =>
      s.(mainPosition := 95, mainLength := 100)
    case ExpungeFolders(_) =>
      s.(mainPosition := 100, subProgresses := map[])
    case OtherEvent =>
      s
  }

  /**
   * A folder's bar has the done style exactly when its position has reached
   * its length minus one, except that a bar of length 1 never gets it.
   */
  ghost predicate DoneMarksConsistent(s: ProgressState)
  {
    && LengthsFit(s)
    && forall f :: f in s.subProgresses ==>
         var c := s.subProgresses[f];
         c.done <==> (c.length != 1 && c.position >= WrappingPred(c.length))
  }

  /** Every event keeps the done marks consistent with the positions. */
  lemma StepKeepsDoneMarksConsistent(s: ProgressState, e: ProgressEvent)
    requires DoneMarksConsistent(s) && EventFits(e)
    ensures DoneMarksConsistent(Step(s, e))
  {
    if e.ApplyEnvelopeHunk? && e.folder in s.subProgresses {
      var c := s.subProgresses[e.folder];
      var c' := Advance(c);
      assert c'.done <==> (c'.length != 1 && c'.position >= WrappingPred(c'.length));
    }
  }

  /** Effect of a folder-patches event: the main bar moves by 3, nothing else. */
  lemma FolderPatchesEffect(s: ProgressState)
    requires LengthsFit(s)
    ensures Step(s, ApplyFolderPatches).mainPosition == s.mainPosition + 3
    ensures Step(s, ApplyFolderPatches).mainLength == s.mainLength
    ensures Step(s, ApplyFolderPatches).subProgresses == s.subProgresses
  {
  }

  /**
   * Effect of an envelope-patches event: the main bar is rescaled from the
   * total patch length (integer division), every folder of the patches gets
   * a fresh bar, overwriting an existing one, and other bars are kept.
   */
  lemma EnvelopePatchesEffect(s: ProgressState, patches: map<FolderName, nat>)
    requires LengthsFit(s) && EventFits(ApplyEnvelopePatches(patches))
    ensures var s' := Step(s, ApplyEnvelopePatches(patches));
      && s'.mainLength == 110 * TotalLength(patches) / 100
      && s'.mainPosition == 5 * TotalLength(patches) / 100
      && s'.subProgresses.Keys == s.subProgresses.Keys + patches.Keys
      && (forall f :: f in patches ==> s'.subProgresses[f] == SubProgress(0, patches[f], false))
      && (forall f :: f in s.subProgresses && f !in patches ==> s'.subProgresses[f] == s.subProgresses[f])
  {
  }

  /**
   * Effect of a hunk event: the main bar moves by one; the hunk's folder bar,
   * if there is one, moves by one; no other bar changes.
   */
  lemma EnvelopeHunkEffect(s: ProgressState, folder: FolderName)
    requires LengthsFit(s)
    ensures var s' := Step(s, ApplyEnvelopeHunk(folder));
      && s'.mainPosition == s.mainPosition + 1
      && s'.mainLength == s.mainLength
      && s'.subProgresses.Keys == s.subProgresses.Keys
      && (forall g :: g in s.subProgresses && g != folder ==> s'.subProgresses[g] == s.subProgresses[g])
      && (folder in s.subProgresses ==>
            && s'.subProgresses[folder].position == s.subProgresses[folder].position + 1
            && s'.subProgresses[folder].length == s.subProgresses[folder].length)
      && (folder !in s.subProgresses ==> s'.subProgresses == s.subProgresses)
  {
  }

  /** Effect of the other events on the main bar and the folder bars. */
  lemma OtherEventsEffect(s: ProgressState, folders: set<FolderName>)
    requires LengthsFit(s)
    ensures Step(s, ApplyEnvelopeCachePatch) == ProgressState(95, 100, s.subProgresses)
    ensures Step(s, ExpungeFolders(folders)) == ProgressState(100, s.mainLength, map[])
    ensures Step(s, OtherEvent) == s
  {
  }

  // ------------------------------------------------------------ event runs

  /** The state after a run of events, each applied in turn. */
  ghost function Run(s: ProgressState, events: seq<ProgressEvent>): (r: ProgressState)
    requires LengthsFit(s)
    requires forall k :: 0 <= k < |events| ==> EventFits(events[k])
    ensures LengthsFit(r)
    decreases |events|
  {
    if events == [] then s
    else Run(Step(s, events[0]), events[1..])
  }

  /** Consistency of the done marks holds after any run of events. */
  lemma {:induction false} RunKeepsDoneMarksConsistent(s: ProgressState, events: seq<ProgressEvent>)
    requires DoneMarksConsistent(s)
    requires forall k :: 0 <= k < |events| ==> EventFits(events[k])
    ensures DoneMarksConsistent(Run(s, events))
    decreases |events|
  {
    if events != [] {
      StepKeepsDoneMarksConsistent(s, events[0]);
      RunKeepsDoneMarksConsistent(Step(s, events[0]), events[1..]);
    }
  }

  /** `n` hunk events in one folder. */
  function Hunks(folder: FolderName, n: nat): (r: seq<ProgressEvent>)
    ensures |r| == n
    ensures forall k :: 0 <= k < n ==> r[k] == ApplyEnvelopeHunk(folder)
  {
    seq(n, _ => ApplyEnvelopeHunk(folder))
  }

  /**
   * After `n` hunks in one folder the main bar has moved by `n`, that
   * folder's bar (if any) by `n`, and every other folder's bar is unchanged.
   */
  lemma {:induction false} HunksAdvance(s: ProgressState, folder: FolderName, n: nat)
    requires LengthsFit(s)
    ensures var s' := Run(s, Hunks(folder, n));
      && s'.mainPosition == s.mainPosition + n
      && s'.mainLength == s.mainLength
      && s'.subProgresses.Keys == s.subProgresses.Keys
      && (forall g :: g in s.subProgresses && g != folder ==> s'.subProgresses[g] == s.subProgresses[g])
      && (folder in s.subProgresses ==>
            && s'.subProgresses[folder].position == s.subProgresses[folder].position + n
            && s'.subProgresses[folder].length == s.subProgresses[folder].length)
    decreases n
  {
    if n > 0 {
      var s1 := Step(s, ApplyEnvelopeHunk(folder));
      assert Hunks(folder, n)[1..] == Hunks(folder, n - 1);
      HunksAdvance(s1, folder, n - 1);
    }
  }

  /**
   * A folder whose patch has `len` hunks, after its first `n` hunks: its bar
   * stands at `n`, and it has the done style exactly when `n` has reached
   * `len - 1` with `len >= 2` (or, for an empty patch, the wrapped `u64`
   * maximum).
   */
  lemma FolderBarAfterHunks(s: ProgressState, patches: map<FolderName, nat>, folder: FolderName, n: nat)
    requires DoneMarksConsistent(s) && EventFits(ApplyEnvelopePatches(patches))
    requires folder in patches
    ensures var s' := Run(Step(s, ApplyEnvelopePatches(patches)), Hunks(folder, n));
      && folder in s'.subProgresses
      && var c := s'.subProgresses[folder];
      && c.position == n
      && c.length == patches[folder]
      && (c.done <==> (patches[folder] >= 2 && n >= patches[folder] - 1) || (patches[folder] == 0 && n >= U64_MAX))
  {
    var s1 := Step(s, ApplyEnvelopePatches(patches));
    StepKeepsDoneMarksConsistent(s, ApplyEnvelopePatches(patches));
    HunksAdvance(s1, folder, n);
    RunKeepsDoneMarksConsistent(s1, Hunks(folder, n));
  }

  /** A folder with a single hunk to apply never gets the done style, however many hunks arrive. */
  lemma SingleHunkFolderNeverDone(s: ProgressState, patches: map<FolderName, nat>, folder: FolderName, n: nat)
    requires DoneMarksConsistent(s) && EventFits(ApplyEnvelopePatches(patches))
    requires folder in patches && patches[folder] == 1
    ensures var s' := Run(Step(s, ApplyEnvelopePatches(patches)), Hunks(folder, n));
      folder in s'.subProgresses && !s'.subProgresses[folder].done
  {
    FolderBarAfterHunks(s, patches, folder, n);
  }

  // ------------------------------------------------------- the callback

  /** The `fold` summing the patch lengths. */
  method SumPatchLengths(patches: map<FolderName, nat>) returns (total: nat)
    ensures total == TotalLength(patches)
  {
    total := 0;
    var rest := patches;
    while rest != map[]
      invariant total + TotalLength(rest) == TotalLength(patches)
      decreases |rest|
    {
      var f :| f in rest;
      TotalLengthRemove(rest, f);
      assert |rest - {f}| < |rest| by { assert rest.Keys - {f} < rest.Keys; }
      total := total + rest[f];
      rest := rest - {f};
    }
  }

  /**
   * The bookkeeping the progress callback captures: the main bar and the
   * map of folder bars that the command guards with a mutex.
   */
  class ProgressReporter {
    var mainPosition: nat
    var mainLength: nat
    var subProgresses: map<FolderName, SubProgress>

    function State(): ProgressState
      reads this
    {
      ProgressState(mainPosition, mainLength, subProgresses)
    }

    ghost predicate Valid()
      reads this
    {
      DoneMarksConsistent(State())
    }

    constructor ()
      ensures Valid()
      ensures State() == Initial
    {
      mainPosition := 0;
      mainLength := 100;
      subProgresses := map[];
    }

    /** Creates a fresh bar for every folder of the patches, replacing any existing one. */
    method InsertFreshCounters(patches: map<FolderName, nat>)
      modifies this`subProgresses
      ensures subProgresses == old(subProgresses) + FreshCounters(patches)
    {
      ghost var before := subProgresses;
      var pending := patches.Keys;
      while pending != {}
        invariant pending <= patches.Keys
        invariant subProgresses.Keys == before.Keys + (patches.Keys - pending)
        invariant forall f :: f in subProgresses ==>
          subProgresses[f] == if f in patches && f !in pending then SubProgress(0, patches[f], false) else before[f]
        decreases pending
      {
        var folder :| folder in pending;
        subProgresses := subProgresses[folder := SubProgress(0, patches[folder], false)];
        pending := pending - {folder};
      }
      assert subProgresses == before + FreshCounters(patches);
    }

    /** The callback: updates the bookkeeping for one event and lets the sync go on. */
    method OnProgress(e: ProgressEvent) returns (r: Result<(), string>)
      requires Valid() && EventFits(e)
      modifies this
      ensures Valid()
      ensures State() == Step(old(State()), e)
      ensures r == Ok(())
    {
      StepKeepsDoneMarksConsistent(State(), e);
      match e {
        case ApplyFolderPatches =>
          mainPosition := mainPosition + 3;
        case ApplyEnvelopePatches(patches) =>
          var patchesLen := SumPatchLengths(patches);
          mainLength := 110 * patchesLen / 100;
          mainPosition := 5 * patchesLen / 100;
          InsertFreshCounters(patches);
        case ApplyEnvelopeHunk(folder) =>
          mainPosition := mainPosition + 1;
          if folder in subProgresses {
            var progress := subProgresses[folder];
            var position := progress.position + 1;
            var done := progress.done || position == WrappingPred(progress.length);
            subProgresses := subProgresses[folder := SubProgress(position, progress.length, done)];
          }
        case ApplyEnvelopeCachePatch =>
          mainLength := 100;
          mainPosition := 95;
        case ExpungeFolders(_) =>
          subProgresses := map[];
          mainPosition := 100;
        case OtherEvent =>
      }
      r := Ok(());
    }
  }
}
