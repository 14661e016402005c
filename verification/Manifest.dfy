/**
  The release-decision manifest: report and artifact checks, the derived statuses, building and
  validating.  Instants are microseconds, ages are seconds.
 */
module Manifest {
  import opened Basics
  import opened ChecklistRegistry
  import opened ChecklistPipeline
  import opened ChecklistRecord
  import opened ReleaseClaims

  datatype Status = Safe | Redacted | OtherStatus(text: string)

  datatype Outcome = Passed | Failed | BlockedOutcome | Degraded | Unsupported | Skipped | OtherOutcome(text: string)

  datatype CaseResult = CaseResult(
    caseId: Option<string>,
    outcome: Option<Outcome>,
    privacy: Option<Status>,
    hasPaths: bool,
    hasArtifacts: bool,
    dispatchOnly: bool,          // input mode noop, dry_run_worker or unsupported
    commandAcceptedOnly: bool)   // verification mode command_accepted

  datatype ReportEntry = ReportEntry(result: Option<CaseResult>, evidenceFresh: bool)

  datatype Report = Report(schema: Option<string>, generatedAt: Option<Timestamp>, results: Option<seq<Option<ReportEntry>>>)

  datatype Artifact = Artifact(
    keys: set<ArtifactKey>,
    sha: Option<string>,
    privacy: Option<Status>,
    redaction: Option<Status>,
    sanitized: Option<bool>)

  datatype Runner = Runner(os: Option<string>, labels: seq<string>)

  datatype RunInfo = RunInfo(url: Option<string>, manualId: Option<string>, runner: Option<Runner>)

  datatype Decision = Decision(state: Option<DecisionKind>, reasons: seq<Blocker>)

  datatype ManifestDoc = ManifestDoc(
    schema: Option<string>,
    sourceSchema: Option<string>,
    policySchema: Option<string>,
    generatedAt: Option<Timestamp>,
    commit: Option<string>,
    tag: Option<string>,
    checksum: Option<string>,
    run: Option<RunInfo>,
    report: Option<Report>,
    artifacts: Option<seq<Artifact>>,
    privacy: Option<Status>,
    redaction: Option<Status>,
    cleanupStatus: Option<string>,
    issues: Option<seq<int>>,
    claims: Option<seq<Claim>>,
    assurance: Option<OperabilityAssurance>,
    checklist: Option<Record>,
    decision: Option<Decision>)

  const MANIFEST_SCHEMA := "automation.gui.benchmark_report.v1.release_decision"
  const REPORT_SCHEMA := "automation.gui.benchmark_report.v1"
  const POLICY_SCHEMA := "automation.gui.permission_evidence.v1"
  const DEFAULT_MAX_AGE := 3600
  const SECOND := 1_000_000

  // ----- ages -------------------------------------------------------------------------------------

  /** The instants against which a check compares the manifest's and the report's own: the same one
      when it is given, two readings of the clock otherwise. */
  datatype Clock = Clock(manifest: Timestamp, report: Timestamp)

  function Still(t: Timestamp): Clock {
    Clock(t, t)
  }

  datatype AgeFault = NoTime | BadTime(text: string) | Future | Stale

  /** What is wrong with a recorded instant at `now`. */
  function AgeFaults(generated: Option<Timestamp>, now: Timestamp, maxAge: int): seq<AgeFault> {
    match generated
    case None => [NoTime]
    case Some(Unparsable(text)) => [BadTime(text)]
    case Some(At(g)) =>
      if now.Unparsable? then [BadTime(now.text)]
      else (if now.micros - g < 0 then [Future] else []) + (if now.micros - g > maxAge * SECOND then [Stale] else [])
  }

  function ManifestAge(f: AgeFault): Blocker {
    match f
    case NoTime => ManifestField("generated_at")
    case BadTime(text) => ManifestTimeBad(text)
    case Future => ManifestFuture
    case Stale => ManifestStale
  }

  function ReportAge(f: AgeFault): Blocker {
    match f
    case NoTime => ReportTimeMissing
    case BadTime(text) => ReportTimeBad(text)
    case Future => ReportFuture
    case Stale => ReportStale
  }

  function ManifestAgeErrors(faults: seq<AgeFault>): (r: seq<Blocker>)
    ensures |r| == |faults|
    ensures forall k :: 0 <= k < |r| ==> r[k] == ManifestAge(faults[k])
  {
    seq(|faults|, k requires 0 <= k < |faults| => ManifestAge(faults[k]))
  }

  function ReportAgeErrors(faults: seq<AgeFault>): (r: seq<Blocker>)
    ensures |r| == |faults|
    ensures forall k :: 0 <= k < |r| ==> r[k] == ReportAge(faults[k])
  {
    seq(|faults|, k requires 0 <= k < |faults| => ReportAge(faults[k]))
  }

  // ----- benchmark report -------------------------------------------------------------------------

  predicate Shareable(status: Option<Status>) {
    status == Some(Safe) || status == Some(Redacted)
  }

  function StatusText(status: Option<Status>): string {
    match status
    case Some(Safe) => "safe"
    case Some(Redacted) => "redacted"
    case Some(OtherStatus(text)) => text
    case None => "None"
  }

  function OutcomeText(outcome: Outcome): string {
    match outcome
    case Failed => "fail"
    case BlockedOutcome => "blocked"
    case Degraded => "degraded"
    case Unsupported => "unsupported"
    case Skipped => "skip"
    case Passed => "pass"
    case OtherOutcome(text) => text
  }

  function CaseText(r: CaseResult): string {
    if r.caseId.Some? then r.caseId.value else "result"
  }

  function PassErrors(id: string, r: CaseResult, evidenceFresh: bool): seq<Blocker> {
      (if !evidenceFresh then [ResultPassFault(id, StaleEvidence)] else [])
    + (if !r.hasPaths then [ResultPassFault(id, NoEvidencePaths)] else [])
    + (if !r.hasArtifacts then [ResultPassFault(id, NoEvidenceArtifacts)] else [])
    + (if r.dispatchOnly then [ResultPassFault(id, DispatchOnly)] else [])
    + (if r.commandAcceptedOnly then [ResultPassFault(id, CommandAcceptedOnly)] else [])
  }

  function EntryErrors(i: nat, entry: Option<ReportEntry>): seq<Blocker> {
    if entry.None? || entry.value.result.None? then [ResultNotObject(i)]
    else
      var r := entry.value.result.value;
      var id := CaseText(r);
      (if !Shareable(r.privacy) then [ResultPrivacy(id, StatusText(r.privacy))] else [])
      + match r.outcome
        case Some(Passed) => PassErrors(id, r, entry.value.evidenceFresh)
        case Some(OtherOutcome(_)) => []
        case Some(other) => [ResultOutcome(id, OutcomeText(other))]
        case None => []
  }

  function EntryErrorLists(entries: seq<Option<ReportEntry>>): (r: seq<seq<Blocker>>)
    ensures |r| == |entries|
    ensures forall k :: 0 <= k < |r| ==> r[k] == EntryErrors(k, entries[k])
  {
    seq(|entries|, k requires 0 <= k < |entries| => EntryErrors(k, entries[k]))
  }

  function ResultsErrors(results: Option<seq<Option<ReportEntry>>>): seq<Blocker> {
    if results.None? || results.value == [] then [ReportEmpty]
    else Flatten(EntryErrorLists(results.value), |results.value|)
  }

  method ReportResultBlockers(results: Option<seq<Option<ReportEntry>>>) returns (errors: seq<Blocker>)
    ensures errors == ResultsErrors(results)
  {
    if results.None? || results.value == [] {
      return [ReportEmpty];
    }
    errors := [];
    for index := 0 to |results.value|
      invariant errors == Flatten(EntryErrorLists(results.value), index)
    {
      errors := errors + EntryErrors(index, results.value[index]);
    }
  }

  // ----- evidence artifacts -----------------------------------------------------------------------

  const ARTIFACT_KEYS := [IdKey, PathKey, ShaKey, PrivacyKey, RedactionKey, SanitizedKey]

  function MissingKeys(i: nat, keys: set<ArtifactKey>, n: nat): (r: seq<Blocker>)
    requires n <= |ARTIFACT_KEYS|
    ensures forall b :: b in r <==> exists k :: 0 <= k < n && ARTIFACT_KEYS[k] !in keys && b == ArtifactMissing(i, ARTIFACT_KEYS[k])
  {
    if n == 0 then []
    else MissingKeys(i, keys, n - 1) + if ARTIFACT_KEYS[n - 1] in keys then [] else [ArtifactMissing(i, ARTIFACT_KEYS[n - 1])]
  }

  function ArtifactErrors(i: nat, a: Artifact): seq<Blocker> {
    MissingKeys(i, a.keys, 6)
    + (if a.sha.Some? && !IsLowerHex(a.sha.value, 64) then [ArtifactSha(i)] else [])
    + (if !Shareable(a.privacy) then [ArtifactPrivacy(i)] else [])
    + (if !Shareable(a.redaction) then [ArtifactRedaction(i)] else [])
    + (if a.sanitized != Some(true) then [ArtifactNotSanitized(i)] else [])
  }

  function ArtifactErrorLists(artifacts: seq<Artifact>): (r: seq<seq<Blocker>>)
    ensures |r| == |artifacts|
    ensures forall k :: 0 <= k < |r| ==> r[k] == ArtifactErrors(k, artifacts[k])
  {
    seq(|artifacts|, k requires 0 <= k < |artifacts| => ArtifactErrors(k, artifacts[k]))
  }

  function ArtifactsErrors(artifacts: Option<seq<Artifact>>): seq<Blocker> {
    if artifacts.None? then [ArtifactsNotList]
    else if artifacts.value == [] then [ArtifactsEmpty]
    else Flatten(ArtifactErrorLists(artifacts.value), |artifacts.value|)
  }

  method EvidenceArtifactBlockers(artifacts: Option<seq<Artifact>>) returns (errors: seq<Blocker>)
    ensures errors == ArtifactsErrors(artifacts)
  {
    if artifacts.None? {
      return [ArtifactsNotList];
    }
    if artifacts.value == [] {
      return [ArtifactsEmpty];
    }
    errors := [];
    for index := 0 to |artifacts.value|
      invariant errors == Flatten(ArtifactErrorLists(artifacts.value), index)
    {
      errors := errors + ArtifactErrors(index, artifacts.value[index]);
    }
  }

  // ----- the manifest check -----------------------------------------------------------------------

  predicate IsChecksum(s: string) {
    "sha256:" <= s && IsLowerHex(s[7..], 64)
  }

  /** The checks before the manifest's own age. */
  function IdentityErrors(m: ManifestDoc): seq<Blocker> {
      (if m.schema != Some(MANIFEST_SCHEMA) then [ManifestField("schema_version")] else [])
    + (if m.sourceSchema != Some(REPORT_SCHEMA) then [ManifestField("source_report_schema_version")] else [])
    + (if m.policySchema != Some(POLICY_SCHEMA) then [ManifestField("evidence_policy_schema_version")] else [])
    + (if m.commit.None? || !IsLowerHex(m.commit.value, 40) then [ManifestField("commit_sha")] else [])
    + (if m.tag.None? || !("v" <= m.tag.value) then [ManifestField("release_tag")] else [])
    + (if m.checksum.None? || !IsChecksum(m.checksum.value) then [ManifestField("artifact_checksum")] else [])
  }

  function RunErrors(run: Option<RunInfo>): seq<Blocker> {
    if run.None? then [ManifestField("run")]
    else
      (if !Given(run.value.url) && !Given(run.value.manualId) then [ManifestField("run_id")] else [])
      + match run.value.runner
        case None => [ManifestField("runner")]
        case Some(runner) =>
          (if !Given(runner.os) then [ManifestField("runner_os")] else [])
          + (if runner.labels == [] then [ManifestField("runner_labels")] else [])
  }

  /** The checks between the manifest's age and the report's age. */
  function StatusErrors(m: ManifestDoc): seq<Blocker> {
    RunErrors(m.run)
    + (if !Shareable(m.privacy) then [PrivacyNotShareable] else [])
    + (if !Shareable(m.redaction) then [RedactionNotShareable] else [])
    + (if m.cleanupStatus != Some("pass") then [ManifestField("cleanup")] else [])
    + (if m.issues.None? || m.issues.value == [] then [ManifestField("covered_issue_numbers")] else [])
    + (if m.report.None? then [ReportMissing]
       else if m.report.value.schema != Some(REPORT_SCHEMA) then [ReportSchema] else [])
  }

  function ReportAgeFaults(report: Option<Report>, now: Timestamp, maxAge: int): seq<AgeFault> {
    if report.None? then [] else AgeFaults(report.value.generatedAt, now, maxAge)
  }

  function ClaimSection(m: ManifestDoc): seq<Blocker> {
    ClaimErrors(m.claims) + AssuranceErrors(m.assurance, m.commit, m.claims)
  }

  function DecisionErrors(decision: Option<Decision>): seq<Blocker> {
    if decision.None? then [ManifestField("release_decision")]
    else if decision.value.state.None? then [DecisionState("None")]
    else if decision.value.state.value.OtherDecision? then [DecisionState(decision.value.state.value.text)]
    else []
  }

  /** The checks after the report's age, except the checklist and the decision. */
  function ContentErrors(m: ManifestDoc): seq<Blocker> {
    (if m.report.None? then [] else ResultsErrors(m.report.value.results))
    + ArtifactsErrors(m.artifacts)
    + ClaimSection(m)
  }

  /** _manifest_blockers, and so validate_manifest, as a function of what they read. */
  ghost function ManifestErrors(m: ManifestDoc, clock: Clock, maxAge: int, contract: Contract): Result<seq<Blocker>, Stop> {
    match ChecklistErrors(m.checklist, contract, m.commit, m.tag)
    case Failure(stop) => Failure(stop)
    case Success(checklistErrors) =>
      Success(IdentityErrors(m)
        + ManifestAgeErrors(AgeFaults(m.generatedAt, clock.manifest, maxAge))
        + StatusErrors(m)
        + ReportAgeErrors(ReportAgeFaults(m.report, clock.report, maxAge))
        + (ContentErrors(m) + checklistErrors + DecisionErrors(m.decision)))
  }

  // ----- deriving and building --------------------------------------------------------------------

  /** The privacy status a report entry contributes; an entry that is not an object contributes none. */
  predicate EntryShareable(entry: Option<ReportEntry>) {
    entry.None? || (entry.value.result.Some? && Shareable(entry.value.result.value.privacy))
  }

  predicate ReportShareable(report: Report) {
    report.results.None? ||
    forall k :: 0 <= k < |report.results.value| ==> EntryShareable(report.results.value[k])
  }

  predicate ReportRedacted(report: Report) {
    report.results.Some? &&
    exists k :: 0 <= k < |report.results.value| && report.results.value[k].Some?
      && report.results.value[k].value.result.Some? && report.results.value[k].value.result.value.privacy == Some(Redacted)
  }

  function DerivePrivacy(report: Report, artifacts: seq<Artifact>): Status {
    if !ReportShareable(report) || exists k :: 0 <= k < |artifacts| && !Shareable(artifacts[k].privacy) then OtherStatus("rejected")
    else if ReportRedacted(report) || exists k :: 0 <= k < |artifacts| && artifacts[k].privacy == Some(Redacted) then Redacted
    else Safe
  }

  function DeriveRedaction(artifacts: seq<Artifact>): Status {
    if exists k :: 0 <= k < |artifacts| && artifacts[k].sanitized != Some(true) then OtherStatus("raw")
    else if exists k :: 0 <= k < |artifacts| && artifacts[k].redaction == Some(Redacted) then Redacted
    else Safe
  }

  /** Text that contains one of the words the decision looks for. */
  predicate Mentions(text: string) {
    Contains(text, "privacy") || Contains(text, "redaction") || Contains(text, "sanitized")
  }

  /** Messages whose fixed wording contains one of the words. */
  predicate PrivacyWorded(b: Blocker) {
    || b.PrivacyNotShareable? || b.RedactionNotShareable? || b.ResultPrivacy?
    || b.ArtifactPrivacy? || b.ArtifactRedaction? || b.ArtifactNotSanitized?
    || (b.ArtifactMissing? && (b.key == PrivacyKey || b.key == RedactionKey || b.key == SanitizedKey))
  }

  /** Messages that quote document text containing one of the words. */
  predicate QuotesWord(b: Blocker) {
    match b
    case RegistryMissingIds(ids) => exists k :: 0 <= k < |ids| && Mentions(ids[k])
    case RegistryUnknownIds(ids) => exists k :: 0 <= k < |ids| && Mentions(ids[k])
    case ItemMissingIds(ids) => exists k :: 0 <= k < |ids| && Mentions(ids[k])
    case ItemUnknownIds(ids) => exists k :: 0 <= k < |ids| && Mentions(ids[k])
    case RegistryDisposition(_, text) => Mentions(text)
    case RegistryPhase(_, text) => Mentions(text)
    case ItemUnknownState(_, text) => Mentions(text)
    case ItemObservedBad(_, text) => Mentions(text)
    case SubjectUnavailable(id, text) => Mentions(id) || Mentions(text)
    case ResultBlocks(id, text) => Mentions(id) || Mentions(text)
    case ManifestTimeBad(text) => Mentions(text)
    case DecisionState(text) => Mentions(text)
    case ClaimState(_, text) => Mentions(text)
    case AssuranceMode(text) => Mentions(text)
    case ReportTimeBad(text) => Mentions(text)
    case ResultPrivacy(id, text) => Mentions(id) || Mentions(text)
    case ResultPassFault(id, _) => Mentions(id)
    case ResultOutcome(id, text) => Mentions(id) || Mentions(text)
    case _ => false
  }

  function DeriveDecision(errors: seq<Blocker>): DecisionKind {
    if exists k :: 0 <= k < |errors| && (PrivacyWorded(errors[k]) || QuotesWord(errors[k])) then BlockedForPrivacy
    else if errors != [] then HardBlock
    else PassDecision
  }

  datatype BuildInput = BuildInput(
    report: Report,
    tag: string,
    commit: string,
    checksum: string,
    run: RunInfo,
    artifacts: seq<Artifact>,
    claims: seq<Claim>,
    assurance: Option<OperabilityAssurance>,
    results: Option<Results>,
    issues: seq<int>,
    cleanupStatus: string)

  /** The manifest before its decision is known. */
  function Draft(input: BuildInput, generatedAt: Timestamp, record: Record): ManifestDoc {
    ManifestDoc(Some(MANIFEST_SCHEMA), Some(REPORT_SCHEMA), Some(POLICY_SCHEMA), Some(generatedAt),
                Some(input.commit), Some(input.tag), Some(input.checksum), Some(input.run),
                Some(input.report), Some(input.artifacts),
                Some(DerivePrivacy(input.report, input.artifacts)), Some(DeriveRedaction(input.artifacts)),
                Some(input.cleanupStatus), Some(input.issues), Some(input.claims), input.assurance, Some(record),
                Some(Decision(Some(PassDecision), [])))
  }

  /** build_manifest: stamped with `generatedAt`, checked at the clock's readings. */
  ghost function Build(input: BuildInput, generatedAt: Timestamp, clock: Clock, contract: Contract): Result<ManifestDoc, Stop> {
    match BuildRecord(input.results, Some(input.commit), Some(input.tag), contract)
    case Failure(stop) => Failure(stop)
    case Success(record) =>
      var draft := Draft(input, generatedAt, record);
      match ManifestErrors(draft, clock, DEFAULT_MAX_AGE, contract)
      case Failure(stop) => Failure(stop)
      case Success(errors) => Success(draft.(decision := Some(Decision(Some(DeriveDecision(errors)), errors))))
  }
}
