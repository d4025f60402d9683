# Verified models of odoo-instance-sdk

This project models the engines of `odoo-instance-sdk` whose guarantees hold over whole runs, and
proves those guarantees. `dafny verify dfyconfig.toml` checks everything.

| engine | modules |
|---|---|
| publishing a bug report once, over crashes and uncertain answers | `BugReportProtocol`, `BugReportExecutor` |
| the step ledger that makes a callback account for every captured step | `StepLedger` |
| the project manifest: writer, TOML reader, constructor, migration of old keys | `Toml`, `Manifest`, `ManifestRoundTrip`, `ManifestLoading`, `ManifestFields`, `ManifestIdentity` |
| captured manifest updates under optimistic concurrency | `RemoteConfig` |
| canonical plan bytes, fingerprints and the registry of prepared commands | `PlanIdentity`, `JsonReader`, `CommandRegistry` |
| the administrator login budget | `LoginBudget` |
| keyset pagination of the catalogue | `CatalogPages` |
| mutation reports and their aggregate | `MutationReport` |
| the process table's column widths | `ColumnWidths` |
| the evidence package that states its own size | `EvidencePackage` |
| the composed read-only resource command | `ResourceCommand` |
| TOON key order | `ToonProjection`, with `CanonicalOrder` |

`Text`, `Sorting` and `Json` hold strings as Python sees them, the stable sort and JSON values.

## How the models are built

Code that changes state step by step is a class or a method with loops, proved against a function or
a state machine; the theorems are lemmas about that function or machine.

* Foreign effects are choices. In the bug-report machine every event carries the answer GitHub gave,
  whether a write was stored, failed before or failed after taking effect, and a crash may come anywhere.
  A `gh` effect lands before its step returns. The executor class runs the source's control flow on a
  real `RunContext` and shows that every run is a history of the machine.
* Library functions that the manifest code calls (URL and path normalisation, lower-casing, `float`,
  containment of paths) are a `Host` record. `ManifestRoundTrip.Lawful` states what is assumed of them:
  normalising twice is normalising once, control characters are not invented, lower-case names stay as
  they are, and a finite float's `repr` is read as that float.
* The manifest is text. The writer produces characters and the reader parses them, following TOML v1.0.0
  (sections "String", "Keys" and "Table") for the fragment that manifests use.
* Publication results are true as far as GitHub is: `PublishedIsTrue` assumes `Honest`, that issues have URLs and that
  an answer names an issue that exists. `UnresolvedExactlyWhen` assumes no hand edits and only that the URL of a created
  issue is not empty, which the pattern it is parsed with guarantees; a URL found by view or search may be empty.
* A prepared callback uses only its own steps. Nothing is assumed about what it leaves out: a child of the resource
  command that returns with steps left over makes the ledger check fail, and `ResourceRun.Invoke` says exactly when.
* What an operation computes is also said without naming the function its body follows: `ManifestFields` states every
  setting by the entry it comes from and every refusal by the entry that causes it, `JsonReader` reads the dumped text
  by RFC 8259 (sections 2 to 7) and knows nothing of the writer, `BugReportExecutor.Answers` gives the result of a run
  by the answers it meets, and `MutationReport.SaysReport` describes a report by its lines.
* SHA-256 is taken as injective where a fingerprint is compared. Clock readings are real numbers. A float
  is the text `repr` gives it.

## What the proofs show about the code

* The repository's written requirement is that a create with an uncertain outcome, a timeout included, is rechecked.
  `UnresolvedExactlyWhen` states it over all histories and shows exactly where the code misses it: a run that executed
  `gh issue create` ends with neither a second search nor a stored URL if and only if the create raised, or the
  process died while the outcome was open. `BlindRoundRuns` is a run that does. The model follows the code; the next
  run searches first, so the bound of one issue plus one per overlooked issue holds, and `BoundIsTight` reaches it.
* Running a command captured with `dry_run=True` never returns the preview its docstring promises: preflight returns it
  while all steps are still planned, and the ledger check refuses the run (`Submit`). Nothing is written.
* The view step is planned from the metadata at capture but executed from the metadata under the lock.
  Protocol writes never drop `issue_number`, so the ledger is exact; a hand edit that removes the number
  makes a run that published fail with an omitted step (`OmittedExactlyWhen`, `HandEditOmitsView`).
* Rewriting a manifest keeps all settings if and only if it has no control characters, its port is not a
  boolean, and no ticket URL stands without `ticket_link_enabled` (`RewriteKeepsSettings`).
  The manifest `preferred_http_port = true` loads, and is then written as `True`, which no reader accepts
  (`FlagManifestIsLost`).
* Capturing a manifest update reads the file twice without the lock. A run that writes commits the previewed manifest if
  and only if the two texts read, without the named source, would be written as the same manifest; this holds for every
  pair of texts that load (`PreviewedTextExactlyWhen`). For manifests that survive being rewritten it is the same as
  agreeing in all other settings (`PreviewExactlyWhen`). One text in both readings is enough (`PreviewIsCommitted`); a
  source added between them is not previewed but committed (`TornCapture`).
* Each login reading of the clock is taken before the lock. If readings are at most d seconds behind the largest one so
  far, no interval of 60 - d seconds holds more than ten grants (`AtMostTenGrants`), and for every d from 0 up to 60 any
  longer interval can hold eleven (`StaleReadingBreaksTheBound`); lock order is the case d = 0. A minute after the window
  began an attempt is granted if and only if fewer than five grants are unanswered (`GrantedExactlyWhen`). A grant whose
  verifier cannot be loaded is never answered, so five of them lock everyone out for good (`UnansweredGrantsLockOut`).
* A rendered mutation report is read back exactly for clean target paths. The target list accepts a path such as
  `src/=== end mutation report ===.py`, whose report is cut at the marker in it (`ReportRoundTrip`, `MarkedPathIsCut`).
* Admin pages of one size that reach the end join to the filtered catalogue if and only if the size is at most the cap of
  a thousand rows or everything fits into one page (`PagesJoinExactlyWhen`); otherwise rows are missing from the first
  page on (`PagesFallShort`).
* The archived copy of `timing.json` agrees with the archive's size exactly when the size loop settles
  within its two rounds (`PackageEvidence`, `PackageThatDisagrees`).

## Model

| member | source | states |
|---|---|---|
| `BugReportProtocol.AtMostOnePlusMisses` | src/odoo_instance_sdk/bug_report.py:407-444 | over every history, with failures, crashes and hand edits anywhere, the issues created number at most one more than the searches before a create that missed an existing issue |
| `BugReportProtocol.AtMostOnce` | src/odoo_instance_sdk/bug_report.py:668-736 | when those searches are faithful, every history creates at most one issue |
| `BugReportProtocol.BoundIsTight` | src/odoo_instance_sdk/bug_report.py:704-736 | for every number of misses and any sequence of issues there is a history that creates those issues, one more than the misses, by creates that land and raise |
| `BugReportProtocol.LedgerAlways` | src/odoo_instance_sdk/bug_report.py:420-466 | in every reachable state of every history the ledger of the active run has the shape its phase requires, with no step twice |
| `BugReportProtocol.NextStepIsFree` | src/odoo_instance_sdk/bug_report.py:647-770 | the step a run performs next has never been used in that run, in any history |
| `BugReportProtocol.OmittedExactlyWhen` | src/odoo_instance_sdk/bug_report.py:854-905 | a run with a result leaves a step out if and only if the view step was planned, no number was on disk under the lock, and the run created |
| `BugReportProtocol.DiskAlways` | src/odoo_instance_sdk/bug_report.py:368-387 | without hand edits the disk follows the active run and a planned view step always finds its number |
| `BugReportProtocol.LedgerExact` | src/odoo_instance_sdk/bug_report.py:420-466 | without hand edits, whatever the metadata held at the start, every run that has its result has executed or skipped each prepared step exactly once |
| `BugReportProtocol.HandEditOmitsView` | src/odoo_instance_sdk/bug_report.py:854-905 | a concrete history with a hand edit creates and stores the issue and still fails with an omitted step |
| `BugReportProtocol.CreateFollowsApprovedIntent` | src/odoo_instance_sdk/bug_report.py:338-387 | wherever a create is possible the persisted intent carries this command's repository, title and payload hash, the report is valid, and a review of the highest round approved exactly that hash |
| `BugReportProtocol.ApprovedMeans` | src/odoo_instance_sdk/bug_report.py:338-365 | a payload counts as approved only through an approving review of the highest round on its own hash, and fails to only without reviews or with one of the highest round that refused it or saw another hash |
| `BugReportProtocol.CapturePlans` | src/odoo_instance_sdk/bug_report.py:854-857 | a capture plans the view step exactly when the stored number is an integer or a boolean and the stored URL is empty, zero, false or missing |
| `BugReportProtocol.PublishedIsTrue` | src/odoo_instance_sdk/bug_report.py:497-506 | with honest GitHub answers, a published result names an issue that exists and whose URL and number are on disk; every stored URL and every past published or already-published result name existing issues |
| `BugReportProtocol.UnresolvedExactlyWhen` | src/odoo_instance_sdk/bug_report.py:704-770 | over every history without hand edits whose created issues have URLs, a run that executed the create ends without a second search and without a stored URL if and only if the create raised, or the process died before the new issue was stored or before the second search with no store in effect |
| `BugReportProtocol.RecoveryPublishes` | src/odoo_instance_sdk/bug_report.py:668-702 | in every state with a free lock and metadata without a URL, a proceeding run whose recheck finds an issue, by number or by marker, publishes it, creates nothing, accounts for every step and settles the report |
| `BugReportProtocol.BlindRoundRuns` | src/odoo_instance_sdk/bug_report.py:704-736 | a run whose create lands and raises adds its issue, stores nothing and ends unresolved |
| `BugReportProtocol.SettledForever` | src/odoo_instance_sdk/bug_report.py:647-666 | once a URL is stored and the lock is free, no later event creates or writes, and every later run returns that URL as already published or crashes |
| `BugReportProtocol.InitGood` | src/odoo_instance_sdk/bug_report.py:138-158 | a fresh report satisfies every invariant, so the theorems hold for each of its histories |
| `BugReportProtocol.LatestIsHighest` | src/odoo_instance_sdk/internal/bug_report.py:401-404 | the latest review is a review of the report with the highest round of all |
| `BugReportExecutor.ValidateForSubmit` | src/odoo_instance_sdk/bug_report.py:338-365 | each blocker by its own cause: no review, a latest review that asks for changes, one on another hash, and three refusals under such a review; ready exactly for a valid report without blockers |
| `BugReportExecutor.RefusalsCount` | src/odoo_instance_sdk/internal/bug_report.py:407-408 | the number of refusals is the number of reviews that asked for changes |
| `BugReportExecutor.Preflight` | src/odoo_instance_sdk/bug_report.py:607-645 | a dry run gets its preview, a draft proceeds only when it is valid and a review of the highest round approved its hash, and which error every other draft meets, three refusals first |
| `BugReportExecutor.SubmissionExecutor.SkipPreparedSteps` | src/odoo_instance_sdk/bug_report.py:458-466 | skips exactly the prepared steps not excepted, each once |
| `BugReportExecutor.SubmissionExecutor.RecheckBeforeCreate` | src/odoo_instance_sdk/bug_report.py:420-444 | the view and search steps run as the machine's recheck events; nothing found leaves the run about to record its intent, and a process that raises ends the run |
| `BugReportExecutor.SubmissionExecutor.PersistIssueOutcome` | src/odoo_instance_sdk/bug_report.py:497-506 | the metadata with URL and number filled in reaches the disk as far as the write does |
| `BugReportExecutor.SubmissionExecutor.RecoverBeforeCreate` | src/odoo_instance_sdk/bug_report.py:668-702 | a found issue is stored and returned with every other step skipped; otherwise the run goes on in step with the machine |
| `BugReportExecutor.SubmissionExecutor.RecordSubmitIntent` | src/odoo_instance_sdk/bug_report.py:368-387 | the intent of this command's draft is added to the metadata and written |
| `BugReportExecutor.SubmissionExecutor.RecoverAfterUncertainOutcome` | src/odoo_instance_sdk/bug_report.py:447-455 | an uncertain create is asked about again: a found issue is stored and returned, none leaves the outcome unknown, a raising search its own failure, and what each leaves on disk |
| `BugReportExecutor.SubmissionExecutor.CreateAndRecover` | src/odoo_instance_sdk/bug_report.py:704-736 | without a stored intent nothing is created; with one the create lands, and result and disk follow from its answer, the store and the second search; always a history of the machine |
| `BugReportExecutor.SubmissionExecutor.PersistCreatedIssue` | src/odoo_instance_sdk/bug_report.py:738-770 | a created issue that cannot be stored is looked up again before the run gives up |
| `BugReportExecutor.SubmissionExecutor.AlreadyPublishedResult` | src/odoo_instance_sdk/bug_report.py:647-666 | a stored URL is returned and every step is skipped |
| `BugReportExecutor.SubmissionExecutor.RunCallback` | src/odoo_instance_sdk/bug_report.py:795-807 | under the lock, for every environment, the result, the disk and the issues added by the stored metadata and the answers met, and the callback is a history of the machine that begins with this run |
| `BugReportExecutor.SubmissionExecutor.RunLocked` | src/odoo_instance_sdk/bug_report.py:795-807 | one whole run under the lock with its fresh ledger and ledger check, for every answer and every process that raises: its outcome is the callback's, or an omitted step exactly where a planned view was not called for and the run created; it extends the history and ends with the lock free |
| `BugReportExecutor.SubmissionExecutor.Submit` | src/odoo_instance_sdk/bug_report.py:795-807 | `run` with preflight, for every command: it goes on only with a valid report approved in the highest round; what is refused, cannot be read or is a dry run touches nothing, a dry run is refused by the ledger, and everything else is one run with the outcome, disk and issues its answers give |
| `StepLedger.RunContext.Consume` | src/odoo_instance_sdk/internal/proc/__init__.py:666-673 | unplanned and repeated steps are refused and change nothing; any other is recorded once |
| `StepLedger.RunContext.Process` | src/odoo_instance_sdk/internal/proc/__init__.py:467-484 | only a planned process step that was not used is executed |
| `StepLedger.RunContext.Action` | src/odoo_instance_sdk/internal/proc/__init__.py:557-565 | an action is consumed and opened; a process id is consumed before it is refused |
| `StepLedger.RunContext.CompleteAction` | src/odoo_instance_sdk/internal/proc/__init__.py:603-619 | only an open action can be completed, and it is closed |
| `StepLedger.RunContext.FailAction` | src/odoo_instance_sdk/internal/proc/__init__.py:631-654 | closes an open action and says whether it was open |
| `StepLedger.RunContext.Skip` | src/odoo_instance_sdk/internal/proc/__init__.py:656-664 | a skipped step counts as accounted for, once |
| `StepLedger.RunContext.Complete` | src/odoo_instance_sdk/internal/proc/__init__.py:675-678 | succeeds exactly when nothing planned is left over, and then each planned step is in the log exactly once |
| `Toml.EscapeReadable` | src/odoo_instance_sdk/project.py:595-597 | reading an escaped text as a TOML basic string gives the text, whatever follows the closing quotation mark |
| `Toml.EscapeFirst` | src/odoo_instance_sdk/project.py:595-597 | the two replacements do not interfere: each character is escaped on its own |
| `Toml.ValueReadable` | src/odoo_instance_sdk/project.py:335-375 | every string, number, boolean and array is read back from its text |
| `Toml.LineReadable` | src/odoo_instance_sdk/project.py:335-375 | every written header and key line is read as what it was written from |
| `Toml.PrintReadable` | src/odoo_instance_sdk/project.py:310-324 | parsing the printed text of any list of sections gives exactly those sections |
| `Toml.EscapesRead` | src/odoo_instance_sdk/project.py:224-225 | in a basic string the seven short escapes stand for their codes and any other letter after a backslash is refused |
| `Toml.ReturnsIgnored` | src/odoo_instance_sdk/project.py:224-225 | a manifest with carriage returns before its newlines is read as the one without |
| `Manifest.SanitizeFacts` | src/odoo_instance_sdk/internal/sanitize.py:23-38 | the sanitiser's results hold no control characters, and its fixed points are exactly the texts without them |
| `Manifest.SanitizeEach` | src/odoo_instance_sdk/internal/sanitize.py:20-37 | character by character, the codes 0 to 31 and 127 to 159 become `\x` and two lower-case hexadecimal digits, and every other character stays |
| `Manifest.Deduplicate` | src/odoo_instance_sdk/project.py:156-192 | the loop keeps what the first-occurrence specification keeps and fails when it fails |
| `Manifest.PostInit` | src/odoo_instance_sdk/project.py:150-213 | the constructor's checks and loops compute the specified configuration or refuse it |
| `Manifest.ReadLoop` | src/odoo_instance_sdk/project.py:417-445 | every source is read in order, or none |
| `Manifest.RemoteInstancesFromMapping` | src/odoo_instance_sdk/project.py:417-445 | the sources are the sorted table's entries, each validated and normalised |
| `Manifest.AppendProjectFields` | src/odoo_instance_sdk/project.py:335-375 | the lines written are the header and exactly the fields that have a value, in order |
| `Manifest.PostgresBlock` | src/odoo_instance_sdk/project.py:484-495 | the block is the text of the postgres section |
| `Manifest.SourceBlock` | src/odoo_instance_sdk/project.py:378-389 | the block is the text of a source's section |
| `Manifest.RemoteBlock` | src/odoo_instance_sdk/project.py:448-458 | the block is the text of the named source's section |
| `Manifest.AppendRemotes` | src/odoo_instance_sdk/project.py:321-323 | each source adds an empty line and its block, in the given order |
| `Manifest.ToManifest` | src/odoo_instance_sdk/project.py:310-324 | the text written is the printed document of the configuration |
| `ManifestRoundTrip.ManifestParses` | src/odoo_instance_sdk/project.py:310-324 | the written text parses to the document, with no duplicate table or key |
| `ManifestRoundTrip.PresentGet` | src/odoo_instance_sdk/project.py:335-375 | a written field is found under its name with the value it was written with |
| `ManifestRoundTrip.ProjectHolds` | src/odoo_instance_sdk/project.py:285-308 | every key that is read is the key that was written, and no old or foreign key appears |
| `ManifestRoundTrip.PostgresReread` | src/odoo_instance_sdk/project.py:461-495 | a written postgres section is read back with controls made visible; a default one reads as absent |
| `ManifestRoundTrip.TestReread` | src/odoo_instance_sdk/project.py:378-414 | a written test instance is read back, normalised and validated |
| `ManifestRoundTrip.RemotesReread` | src/odoo_instance_sdk/project.py:417-458 | written sources are read back in name order |
| `ManifestRoundTrip.LoadWritten` | src/odoo_instance_sdk/project.py:215-324 | for every configuration, loading its manifest hands the constructor the sanitised fields and no others |
| `ManifestRoundTrip.UniqueOnce` | src/odoo_instance_sdk/project.py:156-192 | each canonical form given is kept exactly once, none is lost, and keeping again changes nothing |
| `ManifestRoundTrip.ConstructIdempotent` | src/odoo_instance_sdk/project.py:150-213 | constructing from a constructed configuration changes nothing |
| `ManifestRoundTrip.RereadBack` | src/odoo_instance_sdk/project.py:335-375 | the fields read back are the same settings exactly for a faithful configuration |
| `ManifestRoundTrip.RoundTrip` | src/odoo_instance_sdk/project.py:215-324 | loading the written manifest gives the configuration in normal form (sources by name, default postgres absent, interpreter tagged by spelling) if and only if its strings are free of controls, its URLs and path-like interpreter are normal, its port is a number, and a ticket URL is non-blank beside an explicit switch |
| `ManifestRoundTrip.FlagUnreadable` | src/odoo_instance_sdk/project.py:536-541 | a port loaded from a boolean is written so that the manifest can no longer be parsed |
| `ManifestLoading.DocumentIsMade` | src/odoo_instance_sdk/project.py:215-308 | whatever the parsed document holds, a configuration it loads to is a proper one with normal URLs and paths |
| `ManifestLoading.LoadedIsMade` | src/odoo_instance_sdk/project.py:215-308 | the same for every text the model's reader accepts |
| `ManifestLoading.RewriteKeepsSettings` | src/odoo_instance_sdk/project.py:215-324 | for every parsed document, writing what it loads to and loading that keeps all settings if and only if there are no controls, no boolean port, and no ticket URL without its switch |
| `ManifestLoading.FlagManifestIsLost` | src/odoo_instance_sdk/project.py:536-541 | the manifest `preferred_http_port = true` loads, and the manifest then written cannot be read |
| `ManifestLoading.HistoricalIsRenamed` | src/odoo_instance_sdk/project.py:250-275 | a manifest with the historical ticket keys, whose address is a string wherever the switch is set, is read exactly as the same manifest with the keys renamed |
| `ManifestLoading.IncompleteHistoryRefused` | src/odoo_instance_sdk/project.py:261-266 | a historical switch that is set beside an address that is missing, blank or no string is refused |
| `ManifestLoading.MixedKeysRefused` | src/odoo_instance_sdk/project.py:252-256 | historical and current ticket keys together are refused |
| `ManifestFields.LoadsExactlyWhen` | src/odoo_instance_sdk/project.py:215-308 | for every document: it loads exactly when `[project]`, or the document itself without one, is a table, its keys are accepted and the constructor accepts what they say; every field is then the value of its own entry, with only the first item of each form kept in three lists |
| `ManifestFields.ReadsExactlyWhen` | src/odoo_instance_sdk/project.py:239-308 | the entries that are refused, one by one: the ticket keys, the sections, lists that are no arrays, a port and hours that are no numbers |
| `ManifestFields.ReadsFields` | src/odoo_instance_sdk/project.py:285-308 | every field by its entry: texts, paths, the interpreter by its spelling, lists given as one value, a port given as a boolean, historical ticket keys |
| `ManifestFields.PostgresLoaded` | src/odoo_instance_sdk/project.py:461-481 | compose mode exactly when the entry says so, external without one; image, port and user are the entries; a section that says nothing is none; and exactly what is refused |
| `ManifestFields.TestInstanceLoaded` | src/odoo_instance_sdk/project.py:392-414 | the address normalised, database and branch as given, and exactly what is refused |
| `ManifestFields.SourcesLoaded` | src/odoo_instance_sdk/project.py:417-445 | the sources are those of the entries in the order of the lower-case keys, with stripped lower-case names of letters, digits and underscores; one entry that is not accepted refuses all |
| `ManifestFields.TicketRead` | src/odoo_instance_sdk/project.py:250-275 | switch and address come from the historical keys when one of them is there and from the current ones otherwise, a blank address is none, and exactly what is refused |
| `ManifestFields.KeepsFirsts` | src/odoo_instance_sdk/project.py:156-192 | a list keeps the items whose form no earlier item has, in order, and fails exactly on an item without a form |
| `ManifestFields.ConstructsExactlyWhen` | src/odoo_instance_sdk/project.py:150-213 | the constructor accepts exactly a valid database name, a filestore and repositories inside the project, roots that are absolute or inside, module names that are neither blank nor hold a comma, a base ref that is not blank, positive hours, a ticket address that can be normalised, a set switch only beside an address, and distinct source names; nothing else changes |
| `ManifestFields.SettingOrder` | src/odoo_instance_sdk/project.py:335-375 | the settings are written under the sixteen names of the manifest and in their order |
| `ManifestFields.SectionOrder` | src/odoo_instance_sdk/project.py:310-324 | after the project come postgres unless it says nothing, the test instance and the sources by name |
| `RemoteConfig.EditedFacts` | src/odoo_instance_sdk/project_init.py:865-875 | a change affects exactly the named source; all others stay, and an idle change changes nothing |
| `RemoteConfig.EditSorted` | src/odoo_instance_sdk/project_init.py:897-925 | the result of an edit does not depend on the order the sources were held in |
| `RemoteConfig.Decide` | src/odoo_instance_sdk/project_init.py:897-927 | refused exactly when another source is held under the name and may not be replaced, idle exactly when the source is held as it is or the name is not held; otherwise the sources are the configured one and those under other names |
| `RemoteConfig.RemoteCommand.Run` | src/odoo_instance_sdk/project_init.py:890-929 | succeeds exactly on the captured text; on a captured text that loads it answers that the source exists exactly when some other source is held under its name and may not be replaced; a failure or an idle change leaves the manifest untouched; without leave to replace every source held before is held after |
| `RemoteConfig.CommitKeepsSettings` | src/odoo_instance_sdk/project_init.py:890-929 | a committed update is read back as the current settings with exactly the change, if and only if the result can be rewritten |
| `RemoteConfig.CommittedSources` | src/odoo_instance_sdk/project_init.py:890-929 | the manifest then read holds the configured source, or not the removed one, and every other source unchanged; a change without leave to replace costs no stored source |
| `RemoteConfig.TracksRun` | src/odoo_instance_sdk/project_init.py:820-838 | one successful run moves the manifest to the expected settings |
| `RemoteConfig.NoUpdateIsLost` | src/odoo_instance_sdk/project_init.py:820-929 | in every interleaving of captured commands and other writers of manifests that can be rewritten, whatever is stale or fails, the manifest holds the latest foreign write with exactly the later successful changes |
| `RemoteConfig.ApplyAgrees` | src/odoo_instance_sdk/project_init.py:865-875 | a change makes two configurations the same exactly when they agree on everything but the source it names |
| `RemoteConfig.SameManifest` | src/odoo_instance_sdk/project.py:310-324 | two faithful configurations of one repository have the same manifest text exactly when they are the same settings |
| `RemoteConfig.PreviewedTextExactlyWhen` | src/odoo_instance_sdk/project_init.py:807-929 | for every two texts that load, a run that writes commits the previewed manifest, to the letter, if and only if the text loaded and the text fingerprinted at capture would be written as the same manifest without the named source |
| `RemoteConfig.AgreementCommitsPreview` | src/odoo_instance_sdk/project_init.py:807-929 | for every two texts that load, agreeing on everything but the named source is enough for that |
| `RemoteConfig.PreviewExactlyWhen` | src/odoo_instance_sdk/project_init.py:807-929 | where both results can be rewritten without loss, a successful run commits the previewed settings, idle runs included, if and only if the two texts agree on everything but the named source |
| `ManifestIdentity.SameText` | src/odoo_instance_sdk/project.py:310-324 | any two configurations, controls and boolean ports included, are written as the same text exactly when they are written as the same sections |
| `ManifestIdentity.SectionsByParts` | src/odoo_instance_sdk/project.py:310-324 | two documents are the same exactly when their fixed sections and their sanitised sources in name order are |
| `RemoteConfig.PreviewIsCommitted` | src/odoo_instance_sdk/project_init.py:851-929 | with one text in both readings, and whatever happened in between, including content that went away and came back, a success commits the previewed manifest |
| `RemoteConfig.TornCapture` | src/odoo_instance_sdk/project_init.py:807-817 | for every faithful configuration a source added between the two readings of a capture is committed although it was not previewed: the readings do not agree elsewhere |
| `PlanIdentity.RenderReadable` | src/odoo_instance_sdk/execution.py:161-170 | no text of one JSON value, followed by what may follow a value, is the text of another |
| `PlanIdentity.RenderRead` | src/odoo_instance_sdk/execution.py:161-170 | a reader written from RFC 8259 (sections 2 to 7) reads the text of every JSON value as that value |
| `PlanIdentity.DumpsIsRead` | src/odoo_instance_sdk/execution.py:161-170 | the dumped text is read as the same JSON value, with the keys of every object in code-point order |
| `PlanIdentity.DumpsIsCompact` | src/odoo_instance_sdk/execution.py:165-170 | no blank stands outside a string |
| `PlanIdentity.EscapeLength` | src/odoo_instance_sdk/execution.py:165-170 | every character is written in the shortest way RFC 8259 allows, with lower-case hexadecimal digits |
| `PlanIdentity.CanonicalBytesAreJson` | src/odoo_instance_sdk/execution.py:151-170 | the canonical bytes are compact JSON text in UTF-8 that is read as the redacted projection with ordered keys |
| `PlanIdentity.RedactAt` | src/odoo_instance_sdk/internal/proc/redaction.py:712-745 | at every place outside secret members the value stays and only texts go through the redactor under their own key; inside secret members nothing but the marker is left |
| `PlanIdentity.SecretIsMarked` | src/odoo_instance_sdk/internal/proc/redaction.py:733-742 | the value of every secret member outside other secret members is `<redacted>` |
| `PlanIdentity.Utf8CharDecodes` | src/odoo_instance_sdk/execution.py:165-170 | each character takes the bytes that its code has in UTF-8 |
| `PlanIdentity.DumpsInjective` | src/odoo_instance_sdk/execution.py:161-170 | equal sorted-key dumps mean exactly equal JSON values with objects read as maps |
| `PlanIdentity.Utf8Injective` | src/odoo_instance_sdk/execution.py:161-170 | different texts have different UTF-8 bytes |
| `PlanIdentity.CanonicalBytesInjective` | src/odoo_instance_sdk/execution.py:151-170 | two plans have equal canonical bytes exactly when their redacted projections without fingerprint are the same JSON value |
| `PlanIdentity.UnredactedBytesIdentifyPlans` | src/odoo_instance_sdk/execution.py:151-170 | where redaction hides nothing, equal bytes mean equal steps, observations and warnings |
| `PlanIdentity.FingerprintExcludesItself` | src/odoo_instance_sdk/execution.py:145-176 | attaching a fingerprint never changes the canonical bytes or the fingerprint |
| `CommandRegistry.LiveCommandRunsItsOwnSnapshot` | src/odoo_instance_sdk/execution.py:199-287 | over every sequence of creation, copying, deletion and id reuse, a live command runs the snapshot it was built from, whose projections are its public plan, or raises; never another's |
| `CommandRegistry.BuiltCommandsAreStamped` | src/odoo_instance_sdk/execution.py:204-216 | over every such sequence the plan of a live built command has a fingerprint: the one it was built with or the hash of its own canonical bytes |
| `CommandRegistry.Interpreter.FromPrepared` | src/odoo_instance_sdk/execution.py:204-216 | a new command registers its snapshot under its own id; its plan is the one given, or its stamped form when it had no fingerprint; steps that differ change nothing |
| `CommandRegistry.Interpreter.Duplicate` | src/odoo_instance_sdk/execution.py:199-203 | a copy has no entry of its own and the table stays as it is |
| `CommandRegistry.Interpreter.Delete` | src/odoo_instance_sdk/execution.py:286-287 | deletion removes exactly the entry of the object before its id can be used again |
| `CommandRegistry.Interpreter.Run` | src/odoo_instance_sdk/execution.py:249-274 | run finds exactly the live command's own snapshot or raises |
| `LoginBudget.LoginAttemptBudget.Allow` | src/odoo_instance_sdk/http/admin_auth.py:51-61 | after 60 seconds the window, the failures and the block start afresh; granted exactly when the block is over and failures and attempts in flight are fewer than five |
| `LoginBudget.LoginAttemptBudget.Fail` | src/odoo_instance_sdk/http/admin_auth.py:63-74 | releases the grant, counts the failure, and from the fifth on blocks for 1, 2, 4, 8, 16 and then 30 seconds unless blocked for longer |
| `LoginBudget.LoginAttemptBudget.Succeed` | src/odoo_instance_sdk/http/admin_auth.py:76-82 | releases the grant and resets the window, the failures and the block |
| `LoginBudget.LoginAttemptBudget.Login` | src/odoo_instance_sdk/http/admin_auth.py:150-171 | succeeds exactly for a granted, valid attempt; every grant is answered once unless the verifier cannot be loaded |
| `LoginBudget.NeverMoreThanFive` | src/odoo_instance_sdk/http/admin_auth.py:51-82 | in every run that answers each grant at most once, failures and attempts in flight never exceed five together and the block ends at most a second after the latest failure |
| `LoginBudget.FailuresAreCounted` | src/odoo_instance_sdk/http/admin_auth.py:63-74 | while no window ends and nothing succeeds, the failures grow by exactly the failed answers |
| `LoginBudget.SuccessForgets` | src/odoo_instance_sdk/http/admin_auth.py:76-82 | after a success and k failures with no new window the count is k, whatever went before |
| `LoginBudget.GrantedAfterSuccess` | src/odoo_instance_sdk/http/admin_auth.py:51-82 | in every reachable state an attempt right after a success is granted if and only if fewer than five grants are unanswered, on a clock that is never negative |
| `LoginBudget.DelayTable` | src/odoo_instance_sdk/http/admin_auth.py:71-74 | the backoff after each number of failures, in seconds |
| `LoginBudget.BoundedStep` | src/odoo_instance_sdk/http/admin_auth.py:63-74 | the backoff exponent is always 0, so the delay is always one second |
| `LoginBudget.GrantedExactlyWhen` | src/odoo_instance_sdk/http/admin_auth.py:51-61 | in every reachable state, an attempt a minute after the window began is granted if and only if fewer than five grants are unanswered, on a clock that is never negative |
| `LoginBudget.LockedOut` | src/odoo_instance_sdk/http/admin_auth.py:51-61 | with five unanswered grants no sequence of attempts, at any readings, is granted anything |
| `LoginBudget.UnansweredGrantsLockOut` | src/odoo_instance_sdk/http/admin_auth.py:150-171 | from the start, five grants that are never answered are reachable and all later attempts leave the grants as they are |
| `LoginBudget.DelayCapped` | src/odoo_instance_sdk/http/admin_auth.py:63-74 | in every run, even when answers belong to no grant, the block ends at most thirty seconds after the latest failure |
| `LoginBudget.AtMostTenGrants` | src/odoo_instance_sdk/http/admin_auth.py:51-82 | with no success and readings at most d behind the largest so far, no half-open interval of at most 60 - d seconds holds more than ten grants |
| `LoginBudget.InOrderIsNoLag` | src/odoo_instance_sdk/http/admin_auth.py:51-61 | readings in lock order are exactly those with no lag |
| `LoginBudget.AtMostTenGrantsAMinute` | src/odoo_instance_sdk/http/admin_auth.py:51-82 | with readings in lock order, no interval of a minute holds more than ten grants |
| `LoginBudget.StaleReadingBreaksTheBound` | src/odoo_instance_sdk/http/admin_auth.py:51-61 | for every lag from 0 up to 60 and every length over 60 less the lag, some run with that lag has eleven grants in an interval of that length |
| `CatalogPages.BehindIsSuffix` | src/odoo_instance_sdk/storage/catalog/read.py:195-212 | keyset paging is positional: behind the k-th row lie exactly the rows from k on |
| `CatalogPages.FilterFacts` | src/odoo_instance_sdk/http/admin_catalog.py:159-181 | the filtered catalogue is exactly the matching rows in canonical order, each once |
| `CatalogPages.ReadCatalogPages` | src/odoo_instance_sdk/http/admin_catalog.py:159-181 | for every catalogue, filter, skip and limit the loop ends with the rows of the filtered catalogue from the skip on, as many as asked for and at most 1000 |
| `CatalogPages.CountCatalogPages` | src/odoo_instance_sdk/http/admin_catalog.py:184-195 | the count is the length of the filtered catalogue |
| `CatalogPages.FindCatalogItem` | src/odoo_instance_sdk/http/admin_catalog.py:198-211 | the first row that satisfies the predicate, and none exactly when no row does |
| `CatalogPages.PagesJoin` | src/odoo_instance_sdk/http/admin_catalog.py:159-181 | consecutive Admin pages of one size up to the cap of 1000 join to the filtered catalogue with no gap or repeat |
| `CatalogPages.ReadPages` | src/odoo_instance_sdk/http/admin_catalog.py:159-181 | calling the reader page after page gives the prefix of the filtered catalogue |
| `CatalogPages.PagesJoinExactlyWhen` | src/odoo_instance_sdk/http/admin_catalog.py:159-181 | pages of any one size that reach the end join to the filtered catalogue if and only if the size is within the cap of 1000 or everything fits into one page |
| `CatalogPages.PagesFallShort` | src/odoo_instance_sdk/http/admin_catalog.py:168-170 | above the cap, with more than 1000 matching rows, every number of pages shows fewer rows than it passes |
| `MutationReport.ValidateAccepts` | scripts/mutation_report.py:127-146 | the only values accepted are those of reconciled counts |
| `MutationReport.StatusCounts` | scripts/mutation_report.py:149-159 | counts exist exactly for a non-empty list of the ten known statuses; killed, survived, timeout and suspicious count their own texts, the other six are not checked, and together they make the total |
| `MutationReport.ReadMachineBlock` | scripts/mutation_report.py:162-180 | the loop computes the specified outcome of the first report block |
| `MutationReport.ReportExactlyWhen` | scripts/mutation_report.py:162-180 | a text holds a report exactly when the lines after its first start marker name a target, give every field once and no field twice, and the counts reconcile; the last target counts |
| `MutationReport.CountLineExactly` | scripts/mutation_report.py:31-33 | a line gives a count exactly when it is blanks, a field name, a colon or an equals sign and digits, with blanks between and after |
| `MutationReport.LineEnds` | scripts/mutation_report.py:168 | a line ends at any of Python's line breaks; a carriage return takes a following line feed with it |
| `MutationReport.ReportTargetShape` | scripts/mutation_report.py:162-180 | a target that is read back is one stripped line |
| `MutationReport.ReportRoundTrip` | scripts/mutation_report.py:225-239 | alone or after any lines without a start marker, and before any raw output, a rendered report is read back exactly if and only if its target path is clean |
| `MutationReport.RenderIsText` | scripts/mutation_report.py:225-239 | the text of a report, line by line |
| `MutationReport.CutReport` | scripts/mutation_report.py:162-180 | a target in which the end marker begins makes the report malformed |
| `MutationReport.MarkedPathIsCut` | scripts/mutation_report.py:77-88 | the report of a path that the target list accepts, with the end marker in it, is malformed |
| `MutationReport.RenderedResults` | scripts/mutation_report.py:205-211 | parsing a rendered report gives its counts to whoever expects its target or none and an error to anyone else, whatever the raw output in it says |
| `MutationReport.BlockDecides` | scripts/mutation_report.py:205-211 | a text with a start marker gives counts exactly when its lines say a report for the expected target; only a text without one goes to the raw reader |
| `MutationReport.CollectReports` | scripts/mutation_report.py:284-304 | the loop gathers each well-formed first report and counts every other file as a failure |
| `MutationReport.GatherFacts` | scripts/mutation_report.py:284-304 | nothing fails exactly when every file has a shard and no target comes twice |
| `MutationReport.Aggregate` | scripts/mutation_report.py:320-358 | returns 0 exactly when every file is a readable report with nothing unchecked, the targets reported are exactly the expected ones, each once, the sums are within a valid baseline and the summary can be written; and exactly when it crashes instead of failing |
| `MutationReport.TotalsConserved` | scripts/mutation_report.py:262-281 | the totals of a passing aggregate are killed, survived, timeout and suspicious counts and nothing else |
| `ColumnWidths.WidestCandidate` | src/odoo_instance_sdk/commands/ps.py:227-230 | the widest column above its minimum, the leftmost among equals |
| `ColumnWidths.Shrink` | src/odoo_instance_sdk/commands/ps.py:224-235 | widths stay between minimum and natural and add up to min(sum natural, max(available, sum minimums)); each column is cut at most once, widest first, and all but the last end at their minimum |
| `ColumnWidths.ProcessColumnWidths` | src/odoo_instance_sdk/commands/ps.py:188-235 | a width that is not positive is refused; with 14 columns for borders everything is shown if it fits, else the terminal is filled exactly, unless all columns are at their floors (7, 5, 11, 9, 3, 6, 13 or their natural width from 59 columns on, 1 below) and still too wide; cuts are widest first |
| `ColumnWidths.FitsWhenItCan` | src/odoo_instance_sdk/commands/ps.py:224-235 | the table fits whenever the minimums do, nothing is cut when everything fits, and everything is at its minimum when nothing else would do |
| `EvidencePackage.BudgetReport` | scripts/real_odoo_evidence.py:242-279 | the report is good exactly when all four measurements are within their limits, the archive's being 2097152 bytes for a success and 52428800 for a failure |
| `EvidencePackage.Workspace.ArchiveStaging` | scripts/real_odoo_evidence.py:105-117 | the archive holds what is staged and is refused over 2097152 bytes for a success and 52428800 for a failure |
| `EvidencePackage.Workspace.UpdateMetrics` | scripts/real_odoo_evidence.py:299-370 | the source's timing report states the archive's present size |
| `EvidencePackage.Workspace.PackageEvidence` | scripts/real_odoo_evidence.py:416-480 | for every archiver, success leaves budget, source timing and archive agreeing on one size within the limit, the final size check never fires, a success bundle is accepted, and the archived report agrees exactly when the loop settles |
| `EvidencePackage.PackageThatDisagrees` | scripts/real_odoo_evidence.py:425-443 | with an archiver that never settles, packaging succeeds and the archived report states one byte less than the archive has |
| `ResourceCommand.RunScript` | src/odoo_instance_sdk/internal/proc/__init__.py:447-690 | a callback raises exactly when some operation uses a step of the wrong kind, one used before, or closes an action that is not open; otherwise what it used and left open is what its operations say |
| `ResourceCommand.RunChild` | src/odoo_instance_sdk/commands/resource.py:421-437 | a child ends with an error exactly when the ledger refuses it or its own callback raises, normally and interrupted exactly when its callback does |
| `ResourceCommand.FailChildActions` | src/odoo_instance_sdk/commands/resource.py:130-136 | closes exactly the open actions of the child |
| `ResourceCommand.SkipRemaining` | src/odoo_instance_sdk/commands/resource.py:122-127 | skips exactly what the child left over |
| `ResourceCommand.Probe` | src/odoo_instance_sdk/commands/resource.py:421-437 | wherever the probe fails, all its steps are accounted for and its actions closed; one that returns has accounted for exactly what its callback did |
| `ResourceCommand.ResourceRun.Run` | src/odoo_instance_sdk/commands/resource.py:415-477 | how each probe ends is decided by its own operations and ending alone; wherever either fails, its steps are all accounted for exactly once, the other probe still runs, what is left over is exactly what normally returned callbacks left out, and an open catalogue is closed exactly once, even on an interrupt |
| `ResourceCommand.ResourceRun.Invoke` | src/odoo_instance_sdk/internal/proc/__init__.py:742-765 | the ledger check accepts a run exactly when it was not interrupted, collected, and no probe returned with steps left over; then every planned step is accounted for exactly once |
| `ToonProjection.ProjectMeansTheSame` | src/odoo_instance_sdk/commands/output.py:361-374 | the projection denotes the same value with objects read as maps, and at every depth scalars come first, then non-empty lists and objects, then empty lists, by key within each group |
| `ToonProjection.ProjectIdempotent` | src/odoo_instance_sdk/commands/output.py:361-374 | the values left as they are are exactly those in that order, so projecting twice is projecting once |
| `ToonProjection.ProjectCanonical` | src/odoo_instance_sdk/commands/output.py:361-374 | values that mean the same have the same projection |

## Left out

- RoundTrip: the TOML reader covers the one-line fragment manifests are written in; literal and multi-line strings, arrays over several lines, quoted and dotted keys, dates, `inf` and `nan`, inline tables, arrays of tables, `\u` escapes, digit separators and non-decimal integers are refused by the model. What a document loads to is stated for every parsed table, so only statements that start from a text are confined to the fragment.
- RoundTrip: lone surrogates in paths have no character in the model, so an encoding failure on write does not occur.
- HistoricalIsRenamed: leaves out a historical URL that is not a string beside a switch set to true, which the code refuses at once (IncompleteHistoryRefused) while the renamed form reads the value's text.
- AtMostTenGrantsAMinute: is the case of readings in lock order, because a whole minute is false with any lag; AtMostTenGrants says what holds then.
- ReportRoundTrip: only ASCII digits are digits in a count line.
- PackageEvidence: validation of the other evidence files, redaction while copying and the packaging-error file are one yes-or-no answer.
- NoUpdateIsLost: writers that ignore the lock or leave a manifest that cannot be rewritten, the `.gitignore` that is written first and the repository-identity check.
- Preview and capture from a configuration object instead of a path: the preview then has no tie to the file.
- `effective_ticket_settings` and `managed_filestore_path`: selections of one or two values.
- `init_project_command`: its plan and run order would only add sequential members.
- `_filter_values`, `_query_match` and the choice validators of the catalogue views: branch selection over request parameters.
- `_raw_results` and the branches of `parse_results` without a report block: the same counting as the report block, over another regular expression.
- `load_targets` and the text of `_summary`: configuration reading and presentation.
- Click callbacks, Rich rendering, subprocess, Docker, Git, HTTP and SQLite calls, password hashing, file modes and redaction patterns: foreign effects and library behaviour.
- Lists and dictionaries that the source changes in place are fields or variables of sequence and map type; aliasing of the Python objects is not modelled.
