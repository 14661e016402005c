# Maekon client: verified models

Dafny models of the parts of the Maekon desktop client whose guarantees span many steps, many
list entries or many launches, with proofs of those guarantees. `dafny verify dfyconfig.toml`
checks everything.

| file | component |
|---|---|
| `ShutdownProtocol.dfy`, `ShutdownProgress.dfy` | the background runtime: registrars, shutdown callers and the drain thread as a step relation with both locks, the watch flag and the clock as explicit state; safety, and termination by a measure |
| `ChecklistParser.dfy`, `ChecklistRegistry.dfy`, `ChecklistPipeline.dfy`, `ChecklistRecord.dfy` | the release checklist: line parser, registry check, collector, record builder, record check |
| `ChecklistTheorems.dfy`, `CollectorTheorems.dfy`, `BuilderTheorems.dfy` | what the five checklist stages accept, and what they promise each other |
| `ReleaseClaims.dfy` | the manifest's claims and its operability assurance |
| `Manifest.dfy`, `ManifestTheorems.dfy`, `ManifestAcceptance.dfy`, `ManifestPrivacy.dfy`, `ManifestQuotes.dfy`, `ManifestDecision.dfy` | the release decision manifest: build, validate, acceptance over time, and what decides pass or blocked_for_privacy |
| `ReleaseCommands.dfy` | the commands of the manifest script, with what they compute and when they accept |
| `SampleRelease.dfy` | one release in full, as a witness |
| `MutantEvidence.dfy` | the mutation-evidence aggregator, up to the external scorer |
| `ExemptionExpiry.dfy` | the supply-chain exemption gate |
| `Fingerprint.dfy`, `EvidenceRuns.dfy` | the HTTP Chat fingerprint, and the evidence file under concurrent writers, erasures and readers |
| `InflightRegistry.dfy` | the registry of abortable turns |
| `FocusMode.dfy` | focus mode and its auto-activation |
| `ManagedFiles.dfy`, `BridgeFiles.dfy` | writing and revoking the CLI bridge files |
| `BundleVersion.dfy` | SemVer to Apple bundle version |
| `TicketSecret.dfy` | provisioning of the GUI ticket secret over many launches |
| `Basics.dfy` | options, results and text operations |

Objects that the program updates in place are classes (`Hasher`, `InflightRegistry`,
`FocusModeState`, `BridgeDisk`, `SecretStore`); loops are methods proved against a function or a
property; protocols with several threads are step relations, and their theorems hold in every state
of every run.

## Findings

Where the code does less than its documentation or its design suggests, the model follows the code
and states exactly when the promise holds.

- A build without an explicit `generated_at` reads the clock three times: for the stamp, which it
  cuts to a whole second, for the manifest's age and for the report's. Validating at the stamp then
  agrees with the stored reasons if and only if the manifest's reading is within its age after the
  stamp and no bound of the report lies between the stamp and the report's reading
  (`SelfStampedFixedPointIff`). A report finished after the stamp makes them differ
  (`SelfStampedBuildCanDisagree`), and so does the third reading alone (`ThirdReadingCanDisagree`).
- The privacy decision looks for words in error messages, and some messages quote what the build was
  given. `PrivacyDecisionIff` says exactly when: some evidence is unsafe to share, or one of the words
  stands in the unsupported state of a claim, the unsupported mode of the assurance, an instant that
  cannot be read, the case id of a result that is held against the release, the observation time of a
  collected result, or the reason for an unavailable subject. `SafeEvidenceCanBeBlockedForPrivacy` is
  a release with safe evidence that is blocked for privacy because a skipped case is about privacy.
- A benchmark result with a missing or unknown outcome is not held against a manifest (`ResultsIff`);
  `MissingOutcomeIsAccepted` is a manifest that is accepted with one.
- Equal counts do not by themselves mean that every token of the exemption file was read. When they
  agree, the tokens without an entry are as many as the promises that have no token of their own in
  the raw text, so everything was read if and only if every promise has one (`CoverageByCounting`,
  `CountsCoverIff`). A promise that stands literally in the file has one, however the rest of its
  notes is written (`LiteralPromisesArePlaced`); an escape inside a promise hides it, and a comment
  with a bare token then makes up the number (`CountsAloneDoNotCover`).
- The scan of the deny file reads the first dated promise of a line. A passing gate covers every
  promise of that file on every day if and only if every unread one has a valid date, not before the
  earliest date the gate reads (`DenyFileCoveredEveryDayIff`); on a given day, if and only if no unread
  one is invalid or overdue (`DenyFileCoveredIff`). `SecondPromiseIsNotRead` is a file that passes with
  an overdue one.
- Evaluating the focus rules and activating are two calls. A command between them can let the rules
  start a session during the cooldown or over a running session; `AutoStartIsClearIff` says exactly
  when, `CommandCanComeBetween` shows a run.
- A task that finishes before its turn binds it leaves an entry. An entry in force belongs to a
  finished turn if and only if the turn finished before its bind (`EntryIsStaleIff`), and such an
  entry stays exactly until the next bind or abort of its session (`StaleEntryStaysUntil`); the abort
  then reports success for a task that is gone (`FinishedTaskCanBeAborted`). Tokens are 64-bit: a
  finishing task can end another turn's entry only if their reservations are a multiple of 2^64
  apart (`FinishRemovesIff`).
- The comment on the fingerprint says that different inputs never share an encoding. Secrets enter
  as their digest, so inputs share one exactly when they differ only in secrets whose digests collide
  (`EncodingsEqualIff`), and for every hash function there are such inputs
  (`DifferentInputsShareAnEncoding`); `EqualInputsOrCollision` names the collision.

## Model

| member | source | states |
|---|---|---|
| `ShutdownProtocol.InvHolds` | src-tauri/src/bootstrap_runtime.rs:43-86 | In every state of every run: each lock has the one holder its users' positions say; the ledger of accepted tasks, the taken list, the reports, the aborts, the join handle and the clock are in step. |
| `ShutdownProtocol.AcceptedTaskIsNeverLost` | src-tauri/src/bootstrap_runtime.rs:43-61 | A task whose registration returned Ok is in the shared list until the take and in the taken list from then on, has exactly one outcome when the drain loop is over, and is aborted if and only if that outcome is a timeout. |
| `ShutdownProtocol.RefusedTaskIsAborted` | src-tauri/src/bootstrap_runtime.rs:55-58 | A refused task is aborted, in no list and without an outcome, in every state from the refusal on. |
| `ShutdownProtocol.DrainReportsTheTakenList` | src-tauri/src/bootstrap_runtime.rs:254-278 | After the drain loop the outcomes are those of the taken tasks, in registration order, all of them accepted; every other abort was of a refused task. |
| `ShutdownProtocol.ListStaysEmptyAfterTake` | src-tauri/src/bootstrap_runtime.rs:254-263 | After the take the shared list is empty forever, the taken list is final and reports only grow. |
| `ShutdownProtocol.LateRegistrationIsRefused` | src-tauri/src/bootstrap_runtime.rs:43-61 | Once the flag is set, a registration that has not read it yet never succeeds. |
| `ShutdownProtocol.ShutdownReturnsAfterTheDrain` | src-tauri/src/bootstrap_runtime.rs:63-86 | Any number of concurrent or repeated shutdown calls, the one from Drop included: none returns before the drain thread finished, the thread was joined exactly once, and every accepted task has its outcome. |
| `ShutdownProtocol.JoinedOnlyOnce` | src-tauri/src/bootstrap_runtime.rs:63-79 | The thread is joined at most once in any run, and never before it finished. |
| `ShutdownProtocol.WaitsShareOneBudget` | src-tauri/src/bootstrap_runtime.rs:250-281 | Time spent in the drain waits plus the teardown wait, a running wait counted to its deadline, never exceeds the shutdown timeout, whatever passes between the waits. |
| `ShutdownProtocol.TimeoutUsesTheWholeBudget` | src-tauri/src/bootstrap_runtime.rs:264-277 | No task is timed out before the whole budget has passed since the drain began. |
| `ShutdownProtocol.NoDeadlock` | src-tauri/src/bootstrap_runtime.rs:43-79 | After the signal, while the drain or some shutdown call is not done, a thread already inside a call can step or the clock runs towards a deadline. |
| `ShutdownProgress.StepDescends` | src-tauri/src/bootstrap_runtime.rs:43-79 | Every step but a new call and the passing of time does some of the work that is left, a task that ends by itself included; time adds none. |
| `ShutdownProgress.RunIsBounded` | src-tauri/src/bootstrap_runtime.rs:243-282 | Along any run without new calls, however the tasks end and whatever time passes, the threads take at most as many steps as there was work left. |
| `ShutdownProgress.UnaidedStepDescends` | src-tauri/src/bootstrap_runtime.rs:43-79 | Every step that the threads inside a call take without help, the clock running towards a deadline included, does some of the work that is left. |
| `ShutdownProgress.UnaidedRunIsBounded` | src-tauri/src/bootstrap_runtime.rs:243-282 | A run of such steps is never longer than the work that was left when it began. |
| `ShutdownProgress.StuckMeansQuiet` | src-tauri/src/bootstrap_runtime.rs:63-79 | After the signal, where no such step is possible the drain has finished and every shutdown call has returned. |
| `ShutdownProgress.ShutdownTerminates` | src-tauri/src/bootstrap_runtime.rs:63-86 | After the signal, every run can be continued, without help from the tasks and within the work that is left, to a state in which every shutdown call has returned. |
| `ChecklistParser.PairLines` | scripts/release_decision_manifest.py:69-100 | The line loop succeeds if and only if the marker and item lines alternate, and returns their pairs; a failure names a real fault at the first place where they do not. |
| `ChecklistParser.LoadChecklistItems` | scripts/release_decision_manifest.py:65-108 | Parsing succeeds if and only if markers and items alternate, end on an item, are not empty and have distinct ids; otherwise the fault reported is in the file, the duplicate ids exactly. |
| `ChecklistParser.PairedLinesIncrease` | scripts/release_decision_manifest.py:69-97 | Each marker precedes its item line and the pairs never cross: all lines strictly increase. |
| `ChecklistParser.PairsQuoteTheFile` | scripts/release_decision_manifest.py:88-97 | The k-th item carries the id and the summary found at its two lines. |
| `ChecklistParser.EveryLineIsPaired` | scripts/release_decision_manifest.py:69-97 | No marker or item line of a parsed file is lost. |
| `ChecklistParser.RepeatsAreDuplicates` | scripts/release_decision_manifest.py:104-107 | The reported set is exactly the ids that occur twice, and is empty if and only if the ids are distinct. |
| `ChecklistRegistry.RegistryBlockers` | scripts/release_decision_manifest.py:111-183 | The registry check returns exactly the specified errors in order, or ends as the source does on ids it cannot join; no errors if and only if the registry is sound. |
| `ChecklistRegistry.RegistryItemBlockers` | scripts/release_decision_manifest.py:155-183 | The item loop returns the errors of every item, in item order. |
| `ChecklistRegistry.RegistryAcceptedIff` | scripts/release_decision_manifest.py:111-183 | No errors if and only if the registry has one sound item per checklist id, in checklist order, under the right schema, path and default phase. |
| `ChecklistRegistry.NullPhaseIsRejected` | scripts/release_decision_manifest.py:180-182 | A phase that is present but null does not count as absent: the registry is rejected. |
| `ChecklistPipeline.LoadChecklistContract` | scripts/release_decision_manifest.py:302-328 | Loading succeeds exactly for a well-formed checklist with an accepted registry; the registered items then cover the ids, each once and in order. |
| `ChecklistPipeline.CollectedIsEligible` | scripts/release_decision_manifest.py:223-299 | A collected result carries its item's id, an allowed state, a receipt bound to the commit and tag with a digest and an instant, and a named reviewer where a person decided. |
| `ChecklistPipeline.CollectedAreEligible` | scripts/release_decision_manifest.py:302-372 | The collector's loop yields one eligible result per registered item, in order. |
| `ReleaseCommands.CollectChecklistResults` | scripts/release_decision_manifest.py:302-372 | The collector returns the specified collection or stops with the first fault in the source's order; it succeeds if and only if the release is collectable. |
| `CollectorTheorems.CollectOneIff` | scripts/release_decision_manifest.py:223-299 | A receipt item yields a result if and only if it attests its registered item (disposition, subject, eligible state, real reviewer, genuine receipt for this commit and tag, not from the future), and the result carries over exactly what it says. |
| `CollectorTheorems.PayloadTakenIff` | scripts/release_decision_manifest.py:186-220 | A payload is taken if and only if it is for this schema, commit and tag and its entries name the registered items of its kind one to one. |
| `CollectorTheorems.CollectableIsCollected` | scripts/release_decision_manifest.py:302-372 | For a loaded contract and two one-to-one payloads whose entries attest their items, the collection succeeds with exactly the reported results, in checklist order. |
| `CollectorTheorems.CollectedWasCollectable` | scripts/release_decision_manifest.py:302-372 | Conversely every successful collection has such a contract, such payloads and such results. |
| `BuilderTheorems.BuildableIsBuilt` | scripts/release_decision_manifest.py:375-519 | Results for this release that join the checklist item by item, in order, are built into the record of the joined items. |
| `BuilderTheorems.BuiltWasBuildable` | scripts/release_decision_manifest.py:375-519 | Conversely every built record comes from such results. |
| `ReleaseCommands.BuildChecklistRecord` | scripts/release_decision_manifest.py:375-519 | The builder returns the specified record or stops with the first fault in the source's order; it succeeds if and only if the results are buildable. |
| `ChecklistRecord.SummaryCounts` | scripts/release_decision_manifest.py:480-519 | The counters are the numbers of passed, blocked and pending states. |
| `ReleaseCommands.ChecklistBlockers` | scripts/release_decision_manifest.py:879-1009 | The record check returns exactly the specified errors in order, or ends as the source does; no errors if and only if the record is release-ready. |
| `ChecklistRecord.ItemBlockers` | scripts/release_decision_manifest.py:945-1009 | The item walk returns each item's errors in order and compares the summary with what it counted. |
| `ChecklistTheorems.RecordAcceptedIff` | scripts/release_decision_manifest.py:879-1009 | No blockers if and only if the items are the canonical ids in order, each passed or (only in publish_boundary and post_publish) pending, every human pass reviewed, no subject unavailable, everything bound to contract, commit and tag, and pass + blocked + pending equals the item count. |
| `ChecklistTheorems.CollectedResultsPassThePipeline` | scripts/release_decision_manifest.py:302-519 | Whatever the collector returns, the builder accepts for the same contract, commit and tag, and the record check then reports exactly one error per unavailable subject, in checklist order, and nothing else. |
| `BuilderTheorems.BuiltRecordErrors` | scripts/release_decision_manifest.py:879-1009 | The check of any built record, collected or not, reports item by item in checklist order exactly the faults that the builder lets through: an unbound or undated collected result, an unavailable subject, a blocked state. |
| `Manifest.ReportResultBlockers` | scripts/release_decision_manifest.py:606-650 | The result loop returns every entry's errors in order. |
| `Manifest.EvidenceArtifactBlockers` | scripts/release_decision_manifest.py:653-684 | The artifact loop returns every artifact's errors in order: missing keys, unsafe statuses, bad digests. |
| `ReleaseClaims.ClaimBlockers` | scripts/release_decision_manifest.py:687-733 | The claim check returns exactly the specified errors in order; none if and only if there are claims and each has a known state and good evidence of every stage it needs. |
| `ReleaseClaims.OneClaimIff` | scripts/release_decision_manifest.py:694-731 | A claim is without errors if and only if its state is known and its current evidence is good, together with its history or a reason why that is not relevant. |
| `ReleaseClaims.AssuranceBlockers` | scripts/release_decision_manifest.py:761-876 | The assurance check returns exactly the specified errors in order; none if and only if the assurance is complete. |
| `ReleaseClaims.AssuranceIff` | scripts/release_decision_manifest.py:761-876 | Complete means: for this commit, either interactive evidence with nothing put off, or successful checks, smoke run and gates, with the two macOS claims put off as unproven and not passed elsewhere. |
| `ReleaseClaims.SameSizeIsPermutation` | scripts/release_decision_manifest.py:835-845 | The set and length tests on a list hold if and only if it is a rearrangement of the expected names. |
| `ReleaseCommands.ManifestBlockers` | scripts/release_decision_manifest.py:1012-1142 | Validation returns exactly the specified errors in order, or ends where the checklist check ends; no errors if and only if the manifest is acceptable. |
| `ReleaseCommands.BuildManifest` | scripts/release_decision_manifest.py:1186-1258 | Building returns the draft with the decision derived from the draft's own errors; it returns one if and only if the record builds, decides pass if and only if the inputs call for it, and blocked_for_privacy if and only if some evidence is unsafe or some input is quoted with one of the words. |
| `ManifestTheorems.AcceptanceWindow` | scripts/release_decision_manifest.py:591-604 | An otherwise clean manifest is accepted if and only if each of the two readings lies within max_age after its instant; at one moment t, if and only if max(generated_at, report generated_at) <= t <= min of the two + max_age. |
| `ManifestAcceptance.ResultsIff` | scripts/release_decision_manifest.py:606-650 | No report errors if and only if every result is shareable, none is a known failure, and every pass rests on fresh evidence of a real effect. |
| `ManifestAcceptance.ArtifactsIff` | scripts/release_decision_manifest.py:653-684 | No artifact errors if and only if every artifact has all its keys, a good digest, safe statuses and is sanitized. |
| `ManifestAcceptance.ManifestAcceptedIff` | scripts/release_decision_manifest.py:1012-1142 | Validation accepts if and only if the manifest is identified and in order, its results, artifacts, claims and assurance are good, its checklist is release-ready and both readings of the clock are in time. |
| `ManifestTheorems.BuiltRecordIsCheckable` | scripts/release_decision_manifest.py:879-1009 | The record check never ends abnormally on a record that the builder made. |
| `ManifestTheorems.BuildStopsOnlyInTheRecord` | scripts/release_decision_manifest.py:1186-1258 | A build returns a manifest if and only if the record builder returns a record. |
| `ManifestTheorems.DecisionIsNeutral` | scripts/release_decision_manifest.py:1136-1142 | Storing the derived decision and its reasons never changes what validation reports. |
| `ManifestTheorems.BuildIsAFixedPoint` | scripts/release_decision_manifest.py:1248-1275 | Validating a built manifest at the readings of its build check returns exactly the stored reasons, and the state is pass if and only if there are none; with an explicit generated_at both readings are generated_at. |
| `ManifestTheorems.SelfStampedFixedPointIff` | scripts/release_decision_manifest.py:1186-1258 | When the build stamps itself, validation at the stamp agrees with the stored reasons if and only if the manifest's reading is within its age after the stamp and the report's reading and the stamp lie on the same side of both bounds of the report. |
| `ManifestTheorems.SelfStampedBuildCanDisagree` | scripts/release_decision_manifest.py:1186-1258 | For every buildable input there is a report time for which they disagree. |
| `ManifestTheorems.ThirdReadingCanDisagree` | scripts/release_decision_manifest.py:591-604 | For every buildable input the report's own reading alone can make them disagree. |
| `ManifestQuotes.PrivacyDecisionIff` | scripts/release_decision_manifest.py:1145-1183 | The decision is blocked_for_privacy if and only if some result or artifact is unsafe to share, or a text that the build is given has one of the words and is quoted; unsafe evidence decides whatever other blockers exist. |
| `ManifestQuotes.RecordQuotesIff` | scripts/release_decision_manifest.py:1175-1183 | What the check of a built record can quote: exactly an unreadable observation time of a collected result and the reason for an unavailable subject. |
| `ManifestQuotes.ParsedIdIsStable` | scripts/release_decision_manifest.py:65-108 | Checklist ids consist of capital letters, digits and hyphens, so they never have one of the words. |
| `ManifestDecision.DecidesPassIff` | scripts/release_decision_manifest.py:1186-1258 | A build decides pass if and only if its inputs call for it: identity, run, cleanup, issues, evidence, claims, assurance, one ready result per checklist item, and both instants in time. |
| `ManifestDecision.ReadyIsClean` | scripts/release_decision_manifest.py:375-519 | One ready result per checklist item builds into a record that the check finds nothing in. |
| `ManifestDecision.CleanIsReady` | scripts/release_decision_manifest.py:375-519 | Conversely a built record that the check finds nothing in comes from such results. |
| `SampleRelease.SamplePassesIff` | scripts/release_decision_manifest.py:1186-1258 | A complete release that passes if and only if its one result is a pass or has no known outcome. |
| `SampleRelease.MissingOutcomeIsAccepted` | scripts/release_decision_manifest.py:628-648 | A manifest that is accepted although its result has no outcome. |
| `SampleRelease.SafeEvidenceCanBeBlockedForPrivacy` | scripts/release_decision_manifest.py:1175-1183 | A build with nothing unsafe to share that is blocked for privacy. |
| `ManifestPrivacy.ChecklistIsNotWorded` | scripts/release_decision_manifest.py:1175-1183 | No checklist error's own wording ever decides for privacy. |
| `ManifestPrivacy.DraftWordedIff` | scripts/release_decision_manifest.py:1145-1172 | A draft's errors speak about privacy if and only if the evidence is unsafe. |
| `MutantEvidence.SummaryFollowsFromStatuses` | scripts/aggregate-public-mutants.py:183-195 | The consistency test on summary and statuses holds if and only if the summary is the one outcome that the statuses stand for. |
| `MutantEvidence.MutantSet` | scripts/aggregate-public-mutants.py:115-119 | Success if and only if the enumeration is not empty, all identities are complete and of this crate, and no key comes twice; the set is then exactly the keys. |
| `MutantEvidence.FindBaseline` | scripts/aggregate-public-mutants.py:161-162 | Counts the baseline rows and finds the last one. |
| `MutantEvidence.ClassifyRows` | scripts/aggregate-public-mutants.py:168-196 | The row loop succeeds if and only if every mutant row is sound and no key repeats; the four lists are the rows by summary, in row order. |
| `MutantEvidence.VerifyOutcomes` | scripts/aggregate-public-mutants.py:146-209 | Success if and only if the document is valid for the enumeration: one good baseline, sound rows, exact coverage, matching counts and totals. |
| `MutantEvidence.CheckShard` | scripts/aggregate-public-mutants.py:234-258 | A shard passes if and only if its metadata, exit code, enumeration, outcomes and time window are good. |
| `MutantEvidence.MergeShards` | scripts/aggregate-public-mutants.py:230-260 | The shard loop succeeds if and only if every shard is good, and merges their lists in shard order. |
| `MutantEvidence.MergedHoldsTheShards` | scripts/aggregate-public-mutants.py:259-261 | The merged lists hold every key as often as the shards enumerate it, and as many keys as the shards' totals add up to. |
| `MutantEvidence.MergedListIff` | scripts/aggregate-public-mutants.py:181-196 | A mutant is in the merged list of an outcome if and only if some shard has a row for it whose phase statuses stand for that outcome. |
| `MutantEvidence.FinalChecks` | scripts/aggregate-public-mutants.py:261-266 | The two final checks hold if and only if the shards are pairwise disjoint and their union is the whole enumeration. |
| `MutantEvidence.Aggregate` | scripts/aggregate-public-mutants.py:212-266 | The scorer is reached if and only if the shards are an exact cover; the merged lists are then a duplicate-free partition of the whole, each mutant in the list of the outcome that the statuses of its row stand for, as long as the totals add up to. |
| `ExemptionExpiry.ParseExemptions` | scripts/supply_chain/verify_exemption_expiry.py:57-92 | The two loops read every entry of every crate, in order, with the first dated promise of its notes. |
| `ExemptionExpiry.ScanDenyReviewBy` | scripts/supply_chain/verify_exemption_expiry.py:95-121 | One entry per line with a dated promise, in order. |
| `ExemptionExpiry.DenyLineIsListed` | scripts/supply_chain/verify_exemption_expiry.py:107-121 | No line with a dated promise is lost. |
| `ExemptionExpiry.CountIsAllTokens` | scripts/supply_chain/verify_exemption_expiry.py:131-131 | Counting without overlap counts every occurrence of the token. |
| `ExemptionExpiry.MatchInSegment` | scripts/supply_chain/verify_exemption_expiry.py:45-45 | A match in the notes is the same match, date and all, where the notes stand in the file. |
| `ExemptionExpiry.CoverageByCounting` | scripts/supply_chain/verify_exemption_expiry.py:124-141 | For any placing of promises on tokens of their own that carry them: when the counts agree, the remaining tokens are as many as the promises without a place, so the tokens are exactly the places if and only if every promise has one; with all of them placed, the counts agree if and only if the tokens are the places. |
| `ExemptionExpiry.CountsCoverIff` | scripts/supply_chain/verify_exemption_expiry.py:124-141 | When the counts agree, the entries can be matched with all the tokens if and only if every promise can be placed. |
| `ExemptionExpiry.LiteralPromisesArePlaced` | scripts/supply_chain/verify_exemption_expiry.py:43-45 | Promises that stand literally in the raw text, each at a place of its own, are placed, however the rest of the notes is written. |
| `ExemptionExpiry.OneTokenForEachEntry` | scripts/supply_chain/verify_exemption_expiry.py:124-141 | In a covered file with every promise placed, the stretch in which an entry's notes are written holds no token but that of its promise. |
| `ExemptionExpiry.ReaderOf` | scripts/supply_chain/verify_exemption_expiry.py:124-141 | In a covered file with every promise placed, every token is the place of an entry that was read from it. |
| `ExemptionExpiry.RunGate` | scripts/supply_chain/verify_exemption_expiry.py:165-254 | Exit 0 if and only if the files exist, the counts agree and, under --fail-on-expired, no promise is malformed or overdue; the coverage error exactly when the counts differ. |
| `ExemptionExpiry.PassMeansNothingOverdue` | scripts/supply_chain/verify_exemption_expiry.py:189-254 | Exit 0 under --fail-on-expired: every placed token, and every dated line of the deny file, carries a valid date not before today; the other tokens are as many as the promises without a place, and none when every promise has one. |
| `ExemptionExpiry.CountsAloneDoNotCover` | scripts/supply_chain/verify_exemption_expiry.py:124-141 | A file with an escape inside its promise and a bare token in a comment passes the gate although a token has no date; no placing of it is complete. |
| `ExemptionExpiry.DenyFileCoveredIff` | scripts/supply_chain/verify_exemption_expiry.py:107-121 | A passing gate covers every dated promise of the deny file if and only if no later promise on a line is invalid or overdue. |
| `ExemptionExpiry.DenyFileCoveredEveryDayIff` | scripts/supply_chain/verify_exemption_expiry.py:107-121 | When no malformed date is read, a passing gate covers every dated promise of the deny file on every day if and only if every unread one has a valid date, not before the earliest date that the gate reads. |
| `ExemptionExpiry.OnePromiseForEachLine` | scripts/supply_chain/verify_exemption_expiry.py:107-121 | In particular, with one promise on each line nothing is left unread. |
| `ExemptionExpiry.SecondPromiseIsNotRead` | scripts/supply_chain/verify_exemption_expiry.py:107-121 | A deny file that passes with an overdue second promise on a line. |
| `Fingerprint.EncodingInjective` | src-tauri/src/ai_invocation_evidence.rs:115-143 | Equal encodings come from equal surfaces, equal models and equal credential parts. |
| `Fingerprint.EncodingsEqualIff` | src-tauri/src/ai_invocation_evidence.rs:115-143 | Two inputs share an encoding if and only if they are equal or differ only in secrets whose digests collide. |
| `Fingerprint.DifferentInputsShareAnEncoding` | src-tauri/src/ai_invocation_evidence.rs:115-131 | For every hash function there are two different inputs with one encoding and one fingerprint. |
| `Fingerprint.PartRoundTrip` | src-tauri/src/ai_invocation_evidence.rs:140-143 | A length-prefixed part is read back, with what follows it, for every length below 2^64. |
| `Fingerprint.EqualInputsOrCollision` | src-tauri/src/ai_invocation_evidence.rs:115-138 | Equal fingerprints come from equal inputs, or the two encodings or the two secrets are a collision of the digest. |
| `Fingerprint.DifferentKindsCollide` | src-tauri/src/ai_invocation_evidence.rs:126-131 | Inputs that differ in surface, model or in having a secret share a fingerprint only by a collision of their encodings. |
| `Fingerprint.IsFingerprintIff` | src-tauri/src/ai_invocation_evidence.rs:97-104 | The recogniser accepts exactly the renderings of 32-byte digests. |
| `Fingerprint.EveryFingerprintIsRecognised` | src-tauri/src/ai_invocation_evidence.rs:97-138 | Every fingerprint is recognised. |
| `Fingerprint.UnhexOfHex` | src-tauri/src/ai_invocation_evidence.rs:132-136 | The hexadecimal rendering can be read back. |
| `Fingerprint.Hasher.UpdatePart` | src-tauri/src/ai_invocation_evidence.rs:140-143 | Feeds the big-endian 64-bit length and then the part. |
| `Fingerprint.HttpChatFingerprint` | src-tauri/src/ai_invocation_evidence.rs:117-138 | Feeding the hasher part by part gives the fingerprint of the whole encoding. |
| `EvidenceRuns.InvHolds` | src-tauri/src/ai_invocation_evidence.rs:62-95 | In every run a temporary file belongs to one writer and is seen by nobody, the record is a complete write, and what a reader holds is complete and unchanging. |
| `EvidenceRuns.ReaderSeesOneRecord` | src-tauri/src/ai_invocation_evidence.rs:59-85 | A reader concurrent with any writes and erasures gets, whole, the record that was latest when it opened the file, or no file; never a partial one. |
| `EvidenceRuns.VerifiedIff` | src-tauri/src/ai_invocation_evidence.rs:258-284 | The verdict is true if and only if the latest write, not erased since, carried the fingerprint of the current surface, model and non-blank credential. |
| `EvidenceRuns.VerifiedMeansSameInput` | src-tauri/src/ai_invocation_evidence.rs:208-284 | A true verdict means that write used exactly what a session would use now, or here is the collision. |
| `EvidenceRuns.CurrentInput` | src-tauri/src/ai_invocation_evidence.rs:208-226 | A blank secret is never part of what a session would send. |
| `InflightRegistry.InflightRegistry.ReserveToken` | src-tauri/src/inflight_registry.rs:30-32 | Returns the counter and advances it modulo 2^64. |
| `InflightRegistry.InflightRegistry.BindTask` | src-tauri/src/inflight_registry.rs:36-38 | Replaces the session's entry and nothing else. |
| `InflightRegistry.InflightRegistry.DeregisterTask` | src-tauri/src/inflight_registry.rs:43-48 | Removes the session's entry if and only if it has this token. |
| `InflightRegistry.InflightRegistry.AbortTask` | src-tauri/src/inflight_registry.rs:52-59 | Removes the session's entry, stops its task, and says whether there was one. |
| `InflightRegistry.EntryIffInForce` | src-tauri/src/inflight_registry.rs:30-59 | After any operations a session has an entry if and only if it is that of its latest bind and neither an abort of the session nor a deregistration with the same token came later. |
| `InflightRegistry.AbortStopsTheTaskInForce` | src-tauri/src/inflight_registry.rs:50-59 | An abort stops exactly the task of the bind in force, and changes nothing when there is none. |
| `InflightRegistry.CounterCountsReservations` | src-tauri/src/inflight_registry.rs:30-32 | The counter is the number of reservations modulo 2^64, so each turn holds the token it is modelled to hold. |
| `InflightRegistry.FinishRemovesIff` | src-tauri/src/inflight_registry.rs:40-48 | A finishing task ends the session's entry if and only if the two turns' reservation ranks agree modulo 2^64. |
| `InflightRegistry.FinishNeverEvictsAnotherTurn` | src-tauri/src/inflight_registry.rs:40-48 | With at most 2^64 reservations, a finishing task ends the entry in force if and only if it is its own. |
| `InflightRegistry.EarlyFinishChangesNothing` | src-tauri/src/inflight_registry.rs:26-48 | A task that finishes before its bind changes nothing. |
| `InflightRegistry.EntryIsStaleIff` | src-tauri/src/inflight_registry.rs:26-48 | An entry in force belongs to a finished turn if and only if the turn finished before its bind. |
| `InflightRegistry.StaleEntryStaysUntil` | src-tauri/src/inflight_registry.rs:34-59 | The entry of a turn with no later finish stays in force exactly until the next bind or abort of its session. |
| `InflightRegistry.FinishedTaskCanBeAborted` | src-tauri/src/inflight_registry.rs:26-59 | A run with such an entry: the abort reports success and stops the handle of a finished task. |
| `FocusMode.FocusModeState.Activate` | src-tauri/src/focus_mode.rs:43-49 | Sets the four session fields and keeps the last deactivation. |
| `FocusMode.FocusModeState.Deactivate` | src-tauri/src/focus_mode.rs:51-57 | Clears the session and records the instant. |
| `FocusMode.FocusModeState.RemainingMinutes` | src-tauri/src/focus_mode.rs:59-71 | Some(0) if and only if the expiry check would end the session at that moment. |
| `FocusMode.FocusModeState.CheckExpiry` | src-tauri/src/focus_mode.rs:75-93 | Ends the session, and says so, exactly when it has expired. |
| `FocusMode.ExpiresIff` | src-tauri/src/focus_mode.rs:75-93 | A session has expired if and only if its full duration has passed on the wall clock, counted from its start or from the latest wrap of the 32-bit minute count. |
| `FocusMode.TidyThroughout` | src-tauri/src/focus_mode.rs:43-57 | In every run: active if and only if there is an activation time; inactive means duration and auto flag cleared. |
| `FocusMode.RemembersTheLastEnd` | src-tauri/src/focus_mode.rs:51-93 | The recorded instant is that of the latest deactivation, by command or by expiry. |
| `FocusMode.OutOfCooldownIff` | src-tauri/src/focus_mode.rs:100-109 | The whole-second test says "not in cooldown" exactly when the cooldown has fully passed. |
| `FocusMode.AutoStartIsClearIff` | src-tauri/src/focus_auto.rs:10-41 | An activation by the rules starts inactive and at least the cooldown after the last deactivation if and only if no command came since the decision, or the last was a deactivation at least the cooldown ago. |
| `FocusMode.CommandCanComeBetween` | src-tauri/src/scheduler/loops/focus_auto_helper.rs:18-19 | A run in which a command between the two calls makes the rules start a session in its cooldown. |
| `ManagedFiles.BridgeDisk.MaterializeBridgeFile` | src-tauri/src/cli_subscription_bridge.rs:236-269 | Leaves equal contents alone, writes otherwise, and reports which; with every way the calls can fail. |
| `ManagedFiles.BridgeDisk.RevokeBridgeFile` | src-tauri/src/cli_subscription_bridge.rs:335-363 | Removes a readable managed file, skips a missing or unmanaged one, and fails otherwise. |
| `ManagedFiles.BridgeDisk.SyncFiles` | src-tauri/src/cli_subscription_bridge.rs:272-292 | The loop leaves the files and the report of processing every item in order. |
| `ManagedFiles.BridgeDisk.RevokeFiles` | src-tauri/src/cli_subscription_bridge.rs:294-310 | The loop leaves the files and the report of revoking every item in order. |
| `ManagedFiles.OtherPathsUntouched` | src-tauri/src/cli_subscription_bridge.rs:272-310 | Neither action touches a path outside the plans, whatever fails. |
| `ManagedFiles.UnmanagedSurvives` | src-tauri/src/cli_subscription_bridge.rs:335-375 | Revoking never deletes unmanaged or unreadable content and changes no contents, whatever fails. |
| `ManagedFiles.ReportPartitionsTheItems` | src-tauri/src/cli_subscription_bridge.rs:279-309 | Every plan is reported exactly once, as changed, kept or failed, whatever fails. |
| `ManagedFiles.SyncIsIdempotent` | src-tauri/src/cli_subscription_bridge.rs:236-292 | Without faults a second sync changes nothing and reports every plan unchanged. |
| `ManagedFiles.RevokeUndoesSync` | src-tauri/src/cli_subscription_bridge.rs:272-310 | Sync then revoke removes every plan's path exactly once, skips repeated paths, and leaves everything else as it was. |
| `ManagedFiles.RevokeRemovesIff` | src-tauri/src/cli_subscription_bridge.rs:335-363 | Without faults a file is removed if and only if it is a plan's and its contents are managed. |
| `BridgeFiles.PathNamesTheClient` | src-tauri/src/cli_subscription_bridge.rs:154-169 | Two plans share a path only if they are for the same client. |
| `BridgeFiles.SamePathSamePlan` | src-tauri/src/cli_subscription_bridge.rs:105-152 | Default plans for one path agree on client and artifact, for all roots and home directories. |
| `BridgeFiles.RenderedIsManaged` | src-tauri/src/cli_subscription_bridge.rs:172-233 | Whatever sync writes, revoke recognises as managed. |
| `BridgeFiles.DefaultItems` | src-tauri/src/cli_subscription_bridge.rs:105-233 | The default plans want the same contents wherever they coincide, and only managed contents. |
| `BridgeFiles.SyncTwiceAndRevoke` | src-tauri/src/cli_subscription_bridge.rs:97-310 | With the default plans, home equal to the project root included: the second sync finds everything unchanged, and the revocation removes each path once and nothing else. |
| `BundleVersion.ParseIff` | scripts/macos-bundle-version.py:10-13 | The reader returns a version if and only if it is well formed and the text is its rendering, in either notation. |
| `BundleVersion.DecimalOfNumeral` | scripts/macos-bundle-version.py:36-39 | A numeral without leading zeros is the rendering of its value. |
| `BundleVersion.ConvertsIff` | scripts/macos-bundle-version.py:17-39 | A conversion succeeds with t if and only if the input is the SemVer text of a version within Apple's limits and t is its Apple text. |
| `BundleVersion.ConversionHasLeftInverse` | scripts/macos-bundle-version.py:17-39 | Reading the bundle version back gives the version it was made from. |
| `BundleVersion.ConversionIsInjective` | scripts/macos-bundle-version.py:17-39 | No two versions share a bundle version. |
| `TicketSecret.GenerateSecret` | src-tauri/src/gui_ticket_secret.rs:150-158 | The rendering loop yields the 64 lower-case hexadecimal digits of the bytes, never a blank. |
| `TicketSecret.SecretStore.ResolveSecret` | src-tauri/src/gui_ticket_secret.rs:79-102 | A non-blank override wins and leaves the keychain alone; otherwise the keychain decides. |
| `TicketSecret.SecretStore.ProvisionFromStore` | src-tauri/src/gui_ticket_secret.rs:106-123 | A read error yields nothing and writes nothing; a stored non-blank secret is returned as it is. |
| `TicketSecret.SecretStore.GenerateAndPersist` | src-tauri/src/gui_ticket_secret.rs:127-142 | A generated secret is returned only if the write succeeded. |
| `TicketSecret.StoredSecretStays` | src-tauri/src/gui_ticket_secret.rs:106-123 | A non-blank stored secret is never overwritten, over any sequence of launches and failures. |
| `TicketSecret.ReturnedIsStored` | src-tauri/src/gui_ticket_secret.rs:106-142 | A launch without override returns only a secret that the keychain holds from then on. |
| `TicketSecret.SecretIsStable` | src-tauri/src/gui_ticket_secret.rs:79-142 | All launches without override that return a secret return the same one. |

## Left out

- Shutdown: poisoned locks, a panic of the drain thread and a failure to create it; a task's future
  is only its outcome. Each timed wait is taken to end by its deadline.
- JSON: decoding is not modelled; a field of the wrong type counts as missing, and a list entry that
  is no object as such an entry.
- Manifest: file hashes, the report's loading and the command line are inputs; the entries of the
  artifact and claim lists are objects, as the signatures say.
- Collector: reviewer names and receipt addresses are lowered as ASCII when they are compared with the
  placeholders; the source lowers Unicode.
- Manifest messages: an error is a constructor with the values it quotes, not its full text; the
  privacy words are looked for in the constructor's wording and in the quoted values.
- Mutation evidence: the GitHub identity and toolchain comparisons are one truth value per shard; a
  mutant's key stands for the digest of its identity fields; the scorer and its receipt are not
  modelled.
- Exemptions: TOML decoding and line splitting are inputs; digits, letters and case folding are ASCII
  (the source's patterns also accept other Unicode digits and a dotted or dotless i); the list of
  promises due within 30 days and all printed reports are not modelled.
- Fingerprint: SHA-256 is any function to 32 bytes; the provider catalogue and the session factory
  give the current target and credential.
- Evidence runs: start without a record; a failed or abandoned write leaves its temporary file, which
  nobody opens; the JSON codec is any pair of functions that reads back what it wrote.
- VerifiedIff: speaks of the latest write at the moment the reader opened the file; what happens to
  the file after that is seen by the next reader.
- Bridge files: paths are lists of components, so links and different spellings of one path are not
  identified; directories are only a way for calls to fail; error texts are the plans they name; the
  wording of the templates is a parameter.
- Focus mode: the single atomic fields of one method are set in one step; whether a schedule matches
  the local time is an input; letters are folded as ASCII, as the source does.
- Ticket secret: launches do not overlap; the random bytes are inputs.
- In-flight registry: a handle is a number, and aborting it is a list entry.
- Other crates, the user interface, the launch and permission code, the provider readiness verdicts
  and the build scripts are not modelled: what they decide rests on code outside this repository's
  client or on the platform.
