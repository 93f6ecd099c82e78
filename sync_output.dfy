/**
 * What `account sync` reports once the engine has returned: the dry-run
 * preview with its estimated patch length, and, after a real run, the
 * listing of the hunks and cache commits that failed. Printed text is
 * modelled as a sequence of abstract lines; the wording is left out.
 */
module SyncOutput {
  import opened Wrappers
  import opened SyncReport

  datatype Heading = FoldersPatch | EnvelopesPatch | FoldersPatchErrors | EnvelopesPatchErrors

  datatype CacheKind = FolderCache | EnvelopeCache

  /** One line written by the command. */
  datatype Line =
    | Blank
    | Title(heading: Heading)
    | FolderHunkLine(folderHunk: FolderHunk)
    | EnvelopeHunkLine(envelopeHunk: EnvelopeHunk)
    | FolderHunkError(folderHunk: FolderHunk, error: SyncError)
    | EnvelopeHunkError(envelopeHunk: EnvelopeHunk, error: SyncError)
    | CacheError(cache: CacheKind, error: SyncError)
    | EstimatedLength(account: string, count: nat)
    | Synchronized(account: string)

  // ---------------------------------------------------------------- dry run

  /** One ` - {hunk}` line per folder hunk, in patch order. */
  function FolderHunkLines(p: Patch<FolderHunk>): seq<Line>
  {
    if p == [] then [] else FolderHunkLines(p[..|p| - 1]) + [FolderHunkLine(p[|p| - 1].0)]
  }

  /** One ` - {hunk}` line per envelope hunk, in patch order. */
  function EnvelopeHunkLines(p: Patch<EnvelopeHunk>): seq<Line>
  {
    if p == [] then [] else EnvelopeHunkLines(p[..|p| - 1]) + [EnvelopeHunkLine(p[|p| - 1].0)]
  }

  /** The folder listing has one line per hunk, in patch order. */
  lemma {:induction false} FolderHunkLinesInOrder(p: Patch<FolderHunk>)
    ensures |FolderHunkLines(p)| == |p|
    ensures forall k :: 0 <= k < |p| ==> FolderHunkLines(p)[k] == FolderHunkLine(p[k].0)
    ensures forall l :: l in FolderHunkLines(p) ==> l.FolderHunkLine?
  {
    if p != [] {
      FolderHunkLinesInOrder(p[..|p| - 1]);
    }
  }

  /** The envelope listing has one line per hunk, in patch order. */
  lemma {:induction false} EnvelopeHunkLinesInOrder(p: Patch<EnvelopeHunk>)
    ensures |EnvelopeHunkLines(p)| == |p|
    ensures forall k :: 0 <= k < |p| ==> EnvelopeHunkLines(p)[k] == EnvelopeHunkLine(p[k].0)
    ensures forall l :: l in EnvelopeHunkLines(p) ==> l.EnvelopeHunkLine?
  {
    if p != [] {
      EnvelopeHunkLinesInOrder(p[..|p| - 1]);
    }
  }

  /** A titled block followed by an empty line, written only when it has items. */
  function Section(heading: Heading, items: seq<Line>): seq<Line>
  {
    if items == [] then [] else [Title(heading)] + items + [Blank]
  }

  /**
   * The dry-run preview: each non-empty patch is listed under its title,
   * then the estimated patch length.
   */
  function DryRunPreview(report: Report, account: string, hunksCount: nat): (r: seq<Line>)
    ensures |r| >= 1 && r[|r| - 1] == EstimatedLength(account, hunksCount)
  {
    Section(FoldersPatch, FolderHunkLines(report.foldersPatch))
    + Section(EnvelopesPatch, EnvelopeHunkLines(report.emailsPatch))
    + [EstimatedLength(account, hunksCount)]
  }

  /** A patch's title appears exactly when the patch has a hunk to list. */
  lemma DryRunPreviewTitles(report: Report, account: string, hunksCount: nat)
    ensures Title(FoldersPatch) in DryRunPreview(report, account, hunksCount) <==> report.foldersPatch != []
    ensures Title(EnvelopesPatch) in DryRunPreview(report, account, hunksCount) <==> report.emailsPatch != []
    ensures DryRunPreview(report, account, hunksCount)[|DryRunPreview(report, account, hunksCount)| - 1]
         == EstimatedLength(account, hunksCount)
  {
    FolderHunkLinesInOrder(report.foldersPatch);
    EnvelopeHunkLinesInOrder(report.emailsPatch);
  }

  /**
   * The dry run writes the preview and returns the estimated patch length:
   * the number of folder hunks plus one for every envelope hunk listed.
   */
  method DryRun(report: Report, account: string) returns (lines: seq<Line>, hunksCount: nat)
    ensures hunksCount == |report.foldersPatch| + |report.emailsPatch|
    ensures lines == DryRunPreview(report, account, hunksCount)
  {
    var folders := report.foldersPatch;
    var emails := report.emailsPatch;
    hunksCount := |folders|;
    lines := [];

    if folders != [] {
      lines := lines + [Title(FoldersPatch)];
      for i := 0 to |folders|
        invariant lines == [Title(FoldersPatch)] + FolderHunkLines(folders[..i])
      {
        assert folders[..i + 1][..i] == folders[..i];
        lines := lines + [FolderHunkLine(folders[i].0)];
      }
      assert folders[..|folders|] == folders;
      lines := lines + [Blank];
    }
    ghost var folderPart := lines;
    assert folderPart == Section(FoldersPatch, FolderHunkLines(folders));

    if emails != [] {
      lines := lines + [Title(EnvelopesPatch)];
      for i := 0 to |emails|
        invariant hunksCount == |folders| + i
        invariant lines == folderPart + [Title(EnvelopesPatch)] + EnvelopeHunkLines(emails[..i])
      {
        assert emails[..i + 1][..i] == emails[..i];
        hunksCount := hunksCount + 1;
        lines := lines + [EnvelopeHunkLine(emails[i].0)];
      }
      assert emails[..|emails|] == emails;
      lines := lines + [Blank];
    }
    assert lines == folderPart + Section(EnvelopesPatch, EnvelopeHunkLines(emails));

    lines := lines + [EstimatedLength(account, hunksCount)];
  }

  // ----------------------------------------------------------- error report

  /** One ` - {hunk}: {err}` line per failed folder hunk. */
  function FolderErrorLines(errs: seq<(FolderHunk, SyncError)>): seq<Line>
  {
    if errs == [] then []
    else FolderErrorLines(errs[..|errs| - 1]) + [FolderHunkError(errs[|errs| - 1].0, errs[|errs| - 1].1)]
  }

  /** One ` - {hunk}: {err}` line per failed envelope hunk. */
  function EnvelopeErrorLines(errs: seq<(EnvelopeHunk, SyncError)>): seq<Line>
  {
    if errs == [] then []
    else EnvelopeErrorLines(errs[..|errs| - 1]) + [EnvelopeHunkError(errs[|errs| - 1].0, errs[|errs| - 1].1)]
  }

  /** The folder error listing has one line per failure, in order. */
  lemma {:induction false} FolderErrorLinesInOrder(errs: seq<(FolderHunk, SyncError)>)
    ensures |FolderErrorLines(errs)| == |errs|
    ensures forall k :: 0 <= k < |errs| ==> FolderErrorLines(errs)[k] == FolderHunkError(errs[k].0, errs[k].1)
    ensures forall l :: l in FolderErrorLines(errs) ==> l.FolderHunkError? && (l.folderHunk, l.error) in errs
  {
    if errs != [] {
      FolderErrorLinesInOrder(errs[..|errs| - 1]);
    }
  }

  /** The envelope error listing has one line per failure, in order. */
  lemma {:induction false} EnvelopeErrorLinesInOrder(errs: seq<(EnvelopeHunk, SyncError)>)
    ensures |EnvelopeErrorLines(errs)| == |errs|
    ensures forall k :: 0 <= k < |errs| ==> EnvelopeErrorLines(errs)[k] == EnvelopeHunkError(errs[k].0, errs[k].1)
    ensures forall l :: l in EnvelopeErrorLines(errs) ==> l.EnvelopeHunkError? && (l.envelopeHunk, l.error) in errs
  {
    if errs != [] {
      EnvelopeErrorLinesInOrder(errs[..|errs| - 1]);
    }
  }

  /** An empty line and a title before the items, written only when there are items. */
  function ErrorSection(heading: Heading, items: seq<Line>): seq<Line>
  {
    if items == [] then [] else [Blank, Title(heading)] + items
  }

  function CacheErrorLines(cache: CacheKind, commit: CacheCommit): seq<Line>
  {
    match commit.error
    case Some(e) => [Blank, CacheError(cache, e)]
    case None => []
  }

  /**
   * The summary after a real run, as the command writes it: the block under
   * the envelope-errors title is gated on envelope failures but lists the
   * folder failures.
   */
  function SyncSummaryAsWritten(report: Report, account: string): (r: seq<Line>)
    ensures |r| >= 1 && r[|r| - 1] == Synchronized(account)
  {
    var foldersErr := FailedHunks(report.foldersPatch);
    var envelopesErr := FailedHunks(report.emailsPatch);
    ErrorSection(FoldersPatchErrors, FolderErrorLines(foldersErr))
    + CacheErrorLines(FolderCache, report.foldersCachePatch)
    + (if envelopesErr != [] then [Blank, Title(EnvelopesPatchErrors)] + FolderErrorLines(foldersErr) else [])
    + CacheErrorLines(EnvelopeCache, report.emailsCachePatch)
    + [Synchronized(account)]
  }

  /** The summary with the envelope-errors block listing the envelope failures. */
  function SyncSummary(report: Report, account: string): (r: seq<Line>)
    ensures |r| >= 1 && r[|r| - 1] == Synchronized(account)
  {
    var foldersErr := FailedHunks(report.foldersPatch);
    var envelopesErr := FailedHunks(report.emailsPatch);
    ErrorSection(FoldersPatchErrors, FolderErrorLines(foldersErr))
    + CacheErrorLines(FolderCache, report.foldersCachePatch)
    + ErrorSection(EnvelopesPatchErrors, EnvelopeErrorLines(envelopesErr))
    + CacheErrorLines(EnvelopeCache, report.emailsCachePatch)
    + [Synchronized(account)]
  }

  /** As written, no failed envelope hunk is ever listed, whatever the report. */
  lemma AsWrittenNeverListsEnvelopeFailures(report: Report, account: string)
    ensures forall l :: l in SyncSummaryAsWritten(report, account) ==> !l.EnvelopeHunkError?
  {
    FolderErrorLinesInOrder(FailedHunks(report.foldersPatch));
  }

  /** As written, the summary is the corrected one whenever no envelope hunk failed. */
  lemma AsWrittenAgreesWithoutEnvelopeFailures(report: Report, account: string)
    requires forall i :: 0 <= i < |report.emailsPatch| ==> report.emailsPatch[i].1.None?
    ensures SyncSummaryAsWritten(report, account) == SyncSummary(report, account)
  {
    FailedHunksEmptyIff(report.emailsPatch);
  }

  /** As written, every failed folder hunk is listed with its error. */
  lemma AsWrittenListsEveryFolderFailure(report: Report, account: string)
    ensures forall i :: 0 <= i < |report.foldersPatch| && report.foldersPatch[i].1.Some? ==>
      FolderHunkError(report.foldersPatch[i].0, report.foldersPatch[i].1.value) in SyncSummaryAsWritten(report, account)
  {
    var fp := report.foldersPatch;
    var fErr := FailedHunks(fp);
    FolderErrorLinesInOrder(fErr);
    forall i | 0 <= i < |fp| && fp[i].1.Some?
      ensures FolderHunkError(fp[i].0, fp[i].1.value) in SyncSummaryAsWritten(report, account)
    {
      FailedHunksMembership(fp, fp[i].0, fp[i].1.value);
      var k :| 0 <= k < |fErr| && fErr[k] == (fp[i].0, fp[i].1.value);
      assert FolderErrorLines(fErr)[k] == FolderHunkError(fp[i].0, fp[i].1.value);
    }
  }

  /** As written, each error title is written exactly when its patch has a failed hunk. */
  lemma AsWrittenSummaryTitles(report: Report, account: string)
    ensures Title(FoldersPatchErrors) in SyncSummaryAsWritten(report, account) <==>
      exists i :: 0 <= i < |report.foldersPatch| && report.foldersPatch[i].1.Some?
    ensures Title(EnvelopesPatchErrors) in SyncSummaryAsWritten(report, account) <==>
      exists i :: 0 <= i < |report.emailsPatch| && report.emailsPatch[i].1.Some?
  {
    FolderErrorLinesInOrder(FailedHunks(report.foldersPatch));
    FailedHunksEmptyIff(report.foldersPatch);
    FailedHunksEmptyIff(report.emailsPatch);
  }

  /**
   * As written, each failed cache commit is reported with its error; the
   * success line comes last even after failures were listed (the function's
   * own contract).
   */
  lemma AsWrittenSummaryCacheErrors(report: Report, account: string)
    ensures forall e :: CacheError(FolderCache, e) in SyncSummaryAsWritten(report, account) <==>
      report.foldersCachePatch.error == Some(e)
    ensures forall e :: CacheError(EnvelopeCache, e) in SyncSummaryAsWritten(report, account) <==>
      report.emailsCachePatch.error == Some(e)
  {
    FolderErrorLinesInOrder(FailedHunks(report.foldersPatch));
  }

  /**
   * A run whose only failure is one envelope hunk: as written, the summary
   * shows the envelope-errors title with nothing under it.
   */
  lemma AsWrittenHidesEnvelopeFailure(h: EnvelopeHunk, e: SyncError, account: string)
    ensures var report := Report([], CacheCommit(None), [(h, Some(e))], CacheCommit(None));
      && FailedHunks(report.emailsPatch) == [(h, e)]
      && SyncSummaryAsWritten(report, account) == [Blank, Title(EnvelopesPatchErrors), Synchronized(account)]
      && EnvelopeHunkError(h, e) !in SyncSummaryAsWritten(report, account)
  {
    var report := Report([], CacheCommit(None), [(h, Some(e))], CacheCommit(None));
    assert report.emailsPatch[..0] == [];
    assert FailedHunks(report.emailsPatch) == [(h, e)];
  }

  /**
   * As written, once an envelope hunk has failed, every failed folder hunk
   * is listed at least twice: under its own title and again under the
   * envelope-errors title.
   */
  lemma AsWrittenRepeatsFolderFailures(report: Report, account: string)
    requires exists j :: 0 <= j < |report.emailsPatch| && report.emailsPatch[j].1.Some?
    ensures forall i :: 0 <= i < |report.foldersPatch| && report.foldersPatch[i].1.Some? ==>
      multiset(SyncSummaryAsWritten(report, account))[FolderHunkError(report.foldersPatch[i].0, report.foldersPatch[i].1.value)] >= 2
  {
    FailedHunksEmptyIff(report.emailsPatch);
    AsWrittenEnvelopeBlock(report, account);
    forall i | 0 <= i < |report.foldersPatch| && report.foldersPatch[i].1.Some?
      ensures multiset(SyncSummaryAsWritten(report, account))[FolderHunkError(report.foldersPatch[i].0, report.foldersPatch[i].1.value)] >= 2
    {
      FolderFailureListedTwice(report, account, i);
    }
  }

  /**
   * As written, once an envelope hunk has failed, the block under the
   * envelope-errors title is the folder failure listing.
   */
  lemma AsWrittenEnvelopeBlock(report: Report, account: string)
    requires FailedHunks(report.emailsPatch) != []
    ensures SyncSummaryAsWritten(report, account) ==
      ErrorSection(FoldersPatchErrors, FolderErrorLines(FailedHunks(report.foldersPatch)))
      + CacheErrorLines(FolderCache, report.foldersCachePatch)
      + ([Blank, Title(EnvelopesPatchErrors)] + FolderErrorLines(FailedHunks(report.foldersPatch)))
      + (CacheErrorLines(EnvelopeCache, report.emailsCachePatch) + [Synchronized(account)])
  {
  }

  lemma FolderFailureListedTwice(report: Report, account: string, i: nat)
    requires FailedHunks(report.emailsPatch) != []
    requires i < |report.foldersPatch| && report.foldersPatch[i].1.Some?
    ensures multiset(SyncSummaryAsWritten(report, account))[FolderHunkError(report.foldersPatch[i].0, report.foldersPatch[i].1.value)] >= 2
  {
    var fp := report.foldersPatch;
    var fErr := FailedHunks(fp);
    var l := FolderHunkError(fp[i].0, fp[i].1.value);
    FolderErrorLinesInOrder(fErr);
    FailedHunksMembership(fp, fp[i].0, fp[i].1.value);
    var k :| 0 <= k < |fErr| && fErr[k] == (fp[i].0, fp[i].1.value);
    var folderBlock := ErrorSection(FoldersPatchErrors, FolderErrorLines(fErr));
    var envelopeBlock := [Blank, Title(EnvelopesPatchErrors)] + FolderErrorLines(fErr);
    assert folderBlock[k + 2] == l;
    assert envelopeBlock[k + 2] == l;
    AsWrittenEnvelopeBlock(report, account);
    InTwoPartsCountsTwice(folderBlock, CacheErrorLines(FolderCache, report.foldersCachePatch), envelopeBlock,
      CacheErrorLines(EnvelopeCache, report.emailsCachePatch) + [Synchronized(account)], l);
  }

  /** A line found in two separate parts of a listing occurs in it at least twice. */
  lemma InTwoPartsCountsTwice(a: seq<Line>, between: seq<Line>, b: seq<Line>, after: seq<Line>, l: Line)
    requires l in a && l in b
    ensures multiset(a + between + b + after)[l] >= 2
  {
    assert a + between + b + after == a + (between + (b + after));
    assert multiset(a)[l] >= 1;
    assert multiset(b)[l] >= 1;
  }

  /**
   * As written, one failed folder hunk and one failed envelope hunk give the
   * folder failure twice and never the envelope failure.
   */
  lemma AsWrittenListsFolderFailureTwice(fh: FolderHunk, fe: SyncError, eh: EnvelopeHunk, ee: SyncError, account: string)
    ensures var report := Report([(fh, Some(fe))], CacheCommit(None), [(eh, Some(ee))], CacheCommit(None));
      SyncSummaryAsWritten(report, account) ==
        [Blank, Title(FoldersPatchErrors), FolderHunkError(fh, fe),
         Blank, Title(EnvelopesPatchErrors), FolderHunkError(fh, fe),
         Synchronized(account)]
  {
    var report := Report([(fh, Some(fe))], CacheCommit(None), [(eh, Some(ee))], CacheCommit(None));
    assert report.foldersPatch[..0] == [];
    assert report.emailsPatch[..0] == [];
    assert FailedHunks(report.foldersPatch) == [(fh, fe)];
    assert FailedHunks(report.emailsPatch) == [(eh, ee)];
    assert [(fh, fe)][..0] == [];
    assert FolderErrorLines([(fh, fe)]) == [FolderHunkError(fh, fe)];
  }

  /** Every failed hunk of either patch is listed in the summary. */
  lemma SyncSummaryListsEveryFailure(report: Report, account: string)
    ensures forall i :: 0 <= i < |report.foldersPatch| && report.foldersPatch[i].1.Some? ==>
      FolderHunkError(report.foldersPatch[i].0, report.foldersPatch[i].1.value) in SyncSummary(report, account)
    ensures forall i :: 0 <= i < |report.emailsPatch| && report.emailsPatch[i].1.Some? ==>
      EnvelopeHunkError(report.emailsPatch[i].0, report.emailsPatch[i].1.value) in SyncSummary(report, account)
  {
    var fp, ep := report.foldersPatch, report.emailsPatch;
    var fErr, eErr := FailedHunks(fp), FailedHunks(ep);
    FolderErrorLinesInOrder(fErr);
    EnvelopeErrorLinesInOrder(eErr);
    forall i | 0 <= i < |fp| && fp[i].1.Some?
      ensures FolderHunkError(fp[i].0, fp[i].1.value) in SyncSummary(report, account)
    {
      FailedHunksMembership(fp, fp[i].0, fp[i].1.value);
      var k :| 0 <= k < |fErr| && fErr[k] == (fp[i].0, fp[i].1.value);
      assert FolderErrorLines(fErr)[k] == FolderHunkError(fp[i].0, fp[i].1.value);
    }
    forall i | 0 <= i < |ep| && ep[i].1.Some?
      ensures EnvelopeHunkError(ep[i].0, ep[i].1.value) in SyncSummary(report, account)
    {
      FailedHunksMembership(ep, ep[i].0, ep[i].1.value);
      var k :| 0 <= k < |eErr| && eErr[k] == (ep[i].0, ep[i].1.value);
      assert EnvelopeErrorLines(eErr)[k] == EnvelopeHunkError(ep[i].0, ep[i].1.value);
    }
  }

  /** Every hunk the summary lists as failed is a failed hunk of its own patch. */
  lemma SyncSummaryListsOnlyFailures(report: Report, account: string)
    ensures forall l :: l in SyncSummary(report, account) && l.FolderHunkError? ==>
      exists i :: 0 <= i < |report.foldersPatch| && report.foldersPatch[i] == (l.folderHunk, Some(l.error))
    ensures forall l :: l in SyncSummary(report, account) && l.EnvelopeHunkError? ==>
      exists i :: 0 <= i < |report.emailsPatch| && report.emailsPatch[i] == (l.envelopeHunk, Some(l.error))
  {
    var fp, ep := report.foldersPatch, report.emailsPatch;
    FolderErrorLinesInOrder(FailedHunks(fp));
    EnvelopeErrorLinesInOrder(FailedHunks(ep));
    forall l | l in SyncSummary(report, account) && l.FolderHunkError?
      ensures exists i :: 0 <= i < |fp| && fp[i] == (l.folderHunk, Some(l.error))
    {
      FailedHunksMembership(fp, l.folderHunk, l.error);
    }
    forall l | l in SyncSummary(report, account) && l.EnvelopeHunkError?
      ensures exists i :: 0 <= i < |ep| && ep[i] == (l.envelopeHunk, Some(l.error))
    {
      FailedHunksMembership(ep, l.envelopeHunk, l.error);
    }
  }

  /** Each error title is written exactly when its patch has a failed hunk. */
  lemma SyncSummaryTitles(report: Report, account: string)
    ensures Title(FoldersPatchErrors) in SyncSummary(report, account) <==>
      exists i :: 0 <= i < |report.foldersPatch| && report.foldersPatch[i].1.Some?
    ensures Title(EnvelopesPatchErrors) in SyncSummary(report, account) <==>
      exists i :: 0 <= i < |report.emailsPatch| && report.emailsPatch[i].1.Some?
  {
    var fp, ep := report.foldersPatch, report.emailsPatch;
    FolderErrorLinesInOrder(FailedHunks(fp));
    EnvelopeErrorLinesInOrder(FailedHunks(ep));
    FailedHunksEmptyIff(fp);
    FailedHunksEmptyIff(ep);
  }

  /**
   * Each failed cache commit is reported with its error, and the success
   * line closes the summary whatever failed.
   */
  lemma SyncSummaryCacheErrors(report: Report, account: string)
    ensures forall e :: CacheError(FolderCache, e) in SyncSummary(report, account) <==>
      report.foldersCachePatch.error == Some(e)
    ensures forall e :: CacheError(EnvelopeCache, e) in SyncSummary(report, account) <==>
      report.emailsCachePatch.error == Some(e)
    ensures SyncSummary(report, account)[|SyncSummary(report, account)| - 1] == Synchronized(account)
  {
    FolderErrorLinesInOrder(FailedHunks(report.foldersPatch));
    EnvelopeErrorLinesInOrder(FailedHunks(report.emailsPatch));
  }
}
