# himalaya `account sync`: the command's own rules, verified in Dafny

The `account sync` command synchronises a mail account's folders and
envelopes, with their messages, into a local Maildir cache. The
reconciliation engine lives in the external `email` crate. The
command hands it a folder strategy and a backend context builder, and gets
back a sync report and a stream of progress events. This project models
the rules the command applies on both sides of that call, all from
`src/account/command/sync.rs`:

- **Folder strategy** (`FolderStrategy`). The `--include-folder` and
  `--exclude-folder` lists are collapsed into sets. Include beats Exclude,
  Exclude beats `--all-folders`, and with none of them the account's
  default is kept (`None`).
- **Sync report** (`SyncReport`). A patch is an ordered list of
  `(hunk, optional error)` pairs. `FailedHunks` is the `filter_map` that
  keeps the failed pairs, in patch order.
- **What the command writes** (`SyncOutput`). The dry-run preview with its
  estimated patch length (a method with the source's counting loop). After a
  real run, the summary of failed hunks and failed cache commits, both as
  written and corrected (see Findings). Printed text is a sequence of
  abstract `Line` values.
- **Progress bookkeeping** (`SyncProgress`). The class `ProgressReporter`
  holds the main bar's position and length and a map from folder name to
  that folder's bar (position, length, done style). Its method `OnProgress`
  is the callback. It is proved to move the state exactly as the
  specification function `Step` says, and to keep the invariant
  `DoneMarksConsistent`. Lemmas over `Step` and over runs of events (`Run`)
  state what each event does.
- **Backend contexts** (`BackendContext`). IMAP, Maildir and Notmuch get a
  context exactly when that section is configured and that kind is used.
  The sync Maildir gets one exactly when its kind is used. SMTP and
  sendmail never get one.

Hunks, errors and backend configurations are opaque types. The command
reads only an envelope hunk's folder (`src/account/command/sync.rs:190`),
which the hunk event carries; the text of hunks and errors is only
printed. Things the command gets from outside are
parameters of the model:
- the used backend kinds;
- the outcome of prebuilding IMAP credentials;
- the outcome of looking up the sync directory;
- the report and the events.

A behaviour the proofs make visible: a folder's bar takes the done style
when its position reaches its length minus one. That happens after the
second-to-last hunk, and a folder with a single hunk never gets it
(`SingleHunkFolderNeverDone`). It may depend on when the engine emits the
hunk event, which is not part of this model. So it is modelled as
written and not claimed as a defect.

The summary always ends with the success line, even after it has listed
failed hunks or failed cache commits (`SyncSummaryAsWritten`).

## Model

| member | source | states |
|---|---|---|
| FolderStrategy.Collect | src/account/command/sync.rs:99-100 | a name is in the collected set exactly when it is in the list |
| FolderStrategy.CollectSize | src/account/command/sync.rs:99-100 | the set has at most as many folders as names were given |
| FolderStrategy.CollectForgetsOrderAndDuplicates | src/account/command/sync.rs:99-100 | two lists with the same names give the same set, whatever their order and repetitions |
| FolderStrategy.CollectDuplicate | src/account/command/sync.rs:99-100 | repeating a listed name changes nothing |
| FolderStrategy.ResolveStrategy | src/account/command/sync.rs:99-110 | a non-empty include list gives Include of its set whatever else is given; otherwise a non-empty exclude list gives Exclude of its set; otherwise the flag gives All; otherwise None |
| FolderStrategy.ResolvedSetsAreExact | src/account/command/sync.rs:102-110 | a chosen Include or Exclude set is non-empty and holds exactly the listed names; each result pins down which inputs were given |
| FolderStrategy.DefaultStrategyIffNoFlag | src/account/command/sync.rs:102-110 | the default strategy is kept exactly when no selection was given |
| SyncReport.FailedHunks | src/account/command/sync.rs:222-226 | the failed-pair listing is never longer than the patch |
| SyncReport.FailedHunksSelectsFailures | src/account/command/sync.rs:222-226 | the k-th listed pair is the hunk and error at the k-th failed position, positions increase, and every failed position is listed |
| SyncReport.FailedHunksAppend | src/account/command/sync.rs:242-246 | the listing of two patches joined is the two listings joined, so order is kept |
| SyncReport.FailedHunksEmptyIff | src/account/command/sync.rs:222-227 | the listing is empty exactly when no hunk failed |
| SyncReport.FailedHunksMembership | src/account/command/sync.rs:222-226 | a (hunk, error) pair is listed exactly when the patch holds that hunk with that error |
| SyncOutput.DryRun | src/account/command/sync.rs:124-147 | the estimated patch length is the number of folder hunks plus the number of envelope hunks; each non-empty patch is listed under its title, then the estimate |
| SyncOutput.DryRunPreview | src/account/command/sync.rs:128-147 | the preview the dry run writes: each patch's listing under its title, and the estimate as the last line |
| SyncOutput.DryRunPreviewTitles | src/account/command/sync.rs:128-147 | a patch's title is written exactly when the patch is non-empty; the estimate is the last line |
| SyncOutput.FolderHunkLinesInOrder | src/account/command/sync.rs:130-132 | one line per folder hunk, in patch order |
| SyncOutput.EnvelopeHunkLinesInOrder | src/account/command/sync.rs:138-141 | one line per envelope hunk, in patch order |
| SyncOutput.FolderErrorLinesInOrder | src/account/command/sync.rs:230-232 | one error line per failed folder hunk, in order, and nothing else |
| SyncOutput.EnvelopeErrorLinesInOrder | src/account/command/sync.rs:250-252 | the corrected form of that loop, applied to the envelope failures instead of the folder failures: one error line per failed envelope hunk, in order, and nothing else |
| SyncOutput.SyncSummaryAsWritten | src/account/command/sync.rs:222-262 | the summary exactly as the code writes it; the success line is last whatever failed |
| SyncOutput.AsWrittenAgreesWithoutEnvelopeFailures | src/account/command/sync.rs:242-253 | when no envelope hunk failed, the summary as written is the corrected summary |
| SyncOutput.AsWrittenListsEveryFolderFailure | src/account/command/sync.rs:222-233 | as written, every failed folder hunk is listed with its error |
| SyncOutput.AsWrittenSummaryTitles | src/account/command/sync.rs:227-249 | as written, each error title is written exactly when its patch has a failed hunk |
| SyncOutput.AsWrittenSummaryCacheErrors | src/account/command/sync.rs:235-260 | as written, a cache-commit error is reported exactly when that commit failed |
| SyncOutput.AsWrittenNeverListsEnvelopeFailures | src/account/command/sync.rs:247-253 | as written, no failed envelope hunk is ever listed, whatever the report |
| SyncOutput.AsWrittenHidesEnvelopeFailure | src/account/command/sync.rs:242-253 | as written, a run whose only failure is one envelope hunk shows the envelope-errors title with nothing under it |
| SyncOutput.AsWrittenEnvelopeBlock | src/account/command/sync.rs:247-253 | as written, once an envelope hunk has failed, the block under the envelope-errors title is the folder failure listing |
| SyncOutput.AsWrittenRepeatsFolderFailures | src/account/command/sync.rs:227-253 | as written, once an envelope hunk has failed, every failed folder hunk occurs at least twice in the summary |
| SyncOutput.FolderFailureListedTwice | src/account/command/sync.rs:227-253 | as written, with an envelope failure present, a given failed folder hunk occurs at least twice |
| SyncOutput.AsWrittenListsFolderFailureTwice | src/account/command/sync.rs:222-262 | as written, one failed folder hunk and one failed envelope hunk give the folder error under both titles and the envelope error nowhere |
| SyncOutput.SyncSummary | src/account/command/sync.rs:222-262 | the corrected summary, listing the envelope failures under their title; the success line is last |
| SyncOutput.SyncSummaryListsEveryFailure | src/account/command/sync.rs:222-253 | corrected summary: every failed folder hunk and every failed envelope hunk is listed with its error |
| SyncOutput.SyncSummaryListsOnlyFailures | src/account/command/sync.rs:222-253 | corrected summary: every listed failure is a failed hunk of its own patch |
| SyncOutput.SyncSummaryTitles | src/account/command/sync.rs:227-249 | each error title is written exactly when its patch has a failed hunk |
| SyncOutput.SyncSummaryCacheErrors | src/account/command/sync.rs:235-262 | a cache-commit error is reported exactly when that commit failed; the success line closes the summary in every case |
| SyncProgress.WrappingPred | src/account/command/sync.rs:192 | `length - 1` on a u64 is subtraction modulo 2^64, and stays within the u64 range |
| SyncProgress.TotalLength | src/account/command/sync.rs:172-173 | the sum of the patch lengths is at least each patch's length, and is 0 when every patch is empty |
| SyncProgress.Step | src/account/command/sync.rs:164-218 | the callback's effect on the bookkeeping, one event at a time, built from `FreshCounters` (the per-folder counters of lines 179-184) and `Advance` (the hunk step of lines 190-193); its contract keeps bar lengths within u64, and the effect lemmas below state what each event does |
| SyncProgress.TotalLengthRemove | src/account/command/sync.rs:172-173 | the sum of patch lengths does not depend on which folder is summed first, and bounds each length |
| SyncProgress.SumPatchLengths | src/account/command/sync.rs:172-173 | the fold returns the sum of all patch lengths |
| SyncProgress.StepKeepsDoneMarksConsistent | src/account/command/sync.rs:178-197 | after any event, a bar has the done style exactly when its position has reached length minus one and its length is not 1 |
| SyncProgress.FolderPatchesEffect | src/account/command/sync.rs:167-169 | a folder-patches event moves the main bar by 3 and changes nothing else |
| SyncProgress.EnvelopePatchesEffect | src/account/command/sync.rs:170-186 | main length becomes 110·total/100 and main position 5·total/100; every folder of the patches gets a fresh bar at 0 with its patch length, overwriting an existing one; other bars are kept |
| SyncProgress.EnvelopeHunkEffect | src/account/command/sync.rs:187-198 | the main bar moves by 1; the hunk's folder bar, if any, moves by 1 with its length kept; no other bar changes; an unknown folder changes no bar |
| SyncProgress.OtherEventsEffect | src/account/command/sync.rs:199-216 | the cache-patch event sets the main bar to (95, 100); expunging clears all folder bars and sets the main position to 100; other events change nothing |
| SyncProgress.RunKeepsDoneMarksConsistent | src/account/command/sync.rs:164-218 | the done-mark invariant holds after any run of events |
| SyncProgress.HunksAdvance | src/account/command/sync.rs:187-197 | after n hunks in one folder, the main bar and that folder's bar have moved by n and every other bar is unchanged |
| SyncProgress.FolderBarAfterHunks | src/account/command/sync.rs:170-197 | after its patches event and n of its hunks, a folder's bar stands at n with its patch length, and is done exactly when n has reached length − 1 with length ≥ 2 |
| SyncProgress.SingleHunkFolderNeverDone | src/account/command/sync.rs:178-197 | a folder whose patch has one hunk never gets the done style |
| SyncProgress.ProgressReporter.constructor | src/account/command/sync.rs:152-161 | the main bar starts at position 0 with length 100, with no folder bars |
| SyncProgress.ProgressReporter.InsertFreshCounters | src/account/command/sync.rs:178-185 | the loop inserts a fresh bar for every folder of the patches, replacing existing ones and keeping the rest |
| SyncProgress.ProgressReporter.OnProgress | src/account/command/sync.rs:164-218 | the callback moves the bookkeeping exactly as Step says, keeps the done-mark invariant, and always returns Ok |
| BackendContext.NewBackendContext | src/account/command/sync.rs:280-341 | the build fails exactly when a used, configured IMAP fails to prebuild its credentials or the sync directory cannot be found, and the IMAP error comes first |
| BackendContext.PresentKindsAreUsedAndConfigured | src/account/command/sync.rs:296-340 | on success the kinds with a context are exactly the used kinds among the configured IMAP, Maildir and Notmuch and the sync Maildir |
| BackendContext.ContextsCarryTheirConfiguration | src/account/command/sync.rs:296-340 | each context is present exactly when configured and used and carries its own section; the sync Maildir is rooted at the sync directory; SMTP and sendmail are absent |
| BackendContext.MoreBackendsMoreContexts | src/account/command/sync.rs:282-334 | using more backends never drops a context |

## Left out

- The planner, the applier and the cache commit live in the `email` crate. This includes `AccountSyncBuilder`, what `FolderSyncStrategy` means to it, and hunk application. That crate is not part of this model: reports and events are inputs.
- Printed text, progress-bar styles and templates (lines 34-47), messages and the `MultiProgress` rendering are user interface. Only the order and kind of the lines, and the bars' numbers, are modelled.
- A printer call that fails (the `?` after each `print_log`) is I/O and is not modelled.
- The JSON-printer branch (lines 148-150) is not modelled: it runs the sync and prints only the success line.
- `Mutex`, `Arc` and `async`/`await` are left out. The shared map is a plain field of `ProgressReporter`.
- The following are foreign calls and become parameters of `NewBackendContext`: config loading (`into_account_configs`), `get_used_backends`, IMAP credential prebuilding and `get_sync_dir`.
- The `toml_account_config` and `account_config` fields of the context builder are not modelled; they are passed through unchanged.
- `AccountSyncBackendBuilder::build`, `Deref` and `From` (lines 351-371) are not modelled; they only forward to the external builder.
- Cargo features: every `#[cfg(feature = …)]` part is taken as enabled.
- The cache patches' own hunks are not modelled. Only their commit outcome is read by the command.
- SyncProgress.ProgressReporter.OnProgress: requires every patch length to fit in a `u64`, which Rust's `usize` guarantees. Wrap-around of the main bar's `u64` position and of `usize` in `110 * patches_len` is not modelled: integers are unbounded.
- SyncProgress.WrappingPred: models a release build, where `length - 1` on 0 wraps. A debug build panics there instead.
- The argument structs and I/O plumbing in `src/email/message/command/send.rs`, `src/email/message/command/save.rs`, `src/folder/command/watch.rs` and `src/account/arg/name.rs` are not modelled. They have no logic beyond library calls.

## Findings

| source | as written | input that shows it | evidently intended | confidence | as-written member | corrected member |
|---|---|---|---|---|---|---|
| src/account/command/sync.rs:250 | the block under "Errors occurred while applying the envelopes patch" iterates `folders_patch_err` | no failed folder hunk, one failed envelope hunk: the title is printed with nothing under it, and the envelope error is never shown | iterate `envelopes_patch_err` | high; not executed | SyncOutput.AsWrittenHidesEnvelopeFailure | SyncOutput.SyncSummaryListsEveryFailure |
