/** Which manifests a validation accepts, and when: the whole condition, without the checks' steps. */
module ManifestAcceptance {
  import opened Basics
  import opened ChecklistParser
  import opened ChecklistRegistry
  import opened ChecklistPipeline
  import opened ChecklistRecord
  import opened ChecklistTheorems
  import opened ReleaseClaims
  import opened Manifest
  import opened ManifestTheorems

  ghost predicate Identified(m: ManifestDoc) {
    && m.schema == Some(MANIFEST_SCHEMA) && m.sourceSchema == Some(REPORT_SCHEMA) && m.policySchema == Some(POLICY_SCHEMA)
    && m.commit.Some? && IsLowerHex(m.commit.value, 40)
    && m.tag.Some? && "v" <= m.tag.value
    && m.checksum.Some? && IsChecksum(m.checksum.value)
  }

  ghost predicate RunKnown(run: Option<RunInfo>) {
    && run.Some? && (Given(run.value.url) || Given(run.value.manualId))
    && run.value.runner.Some? && Given(run.value.runner.value.os) && run.value.runner.value.labels != []
  }

  ghost predicate InOrder(m: ManifestDoc) {
    && RunKnown(m.run)
    && Shareable(m.privacy) && Shareable(m.redaction)
    && m.cleanupStatus == Some("pass")
    && m.issues.Some? && m.issues.value != []
    && m.report.Some? && m.report.value.schema == Some(REPORT_SCHEMA)
    && m.decision.Some? && m.decision.value.state.Some? && !m.decision.value.state.value.OtherDecision?
  }

  /** A benchmark result that speaks for the release: shareable, no failure of any kind, and a pass
      only on fresh evidence of a real effect. An outcome the check does not know stays unchecked. */
  ghost predicate GoodResult(entry: Option<ReportEntry>) {
    && entry.Some? && entry.value.result.Some?
    && var r := entry.value.result.value;
       && Shareable(r.privacy)
       && (r.outcome.None? || r.outcome.value.Passed? || r.outcome.value.OtherOutcome?)
       && (r.outcome == Some(Passed) ==>
             entry.value.evidenceFresh && r.hasPaths && r.hasArtifacts && !r.dispatchOnly && !r.commandAcceptedOnly)
  }

  ghost predicate GoodArtifact(a: Artifact) {
    && (forall k :: 0 <= k < |ARTIFACT_KEYS| ==> ARTIFACT_KEYS[k] in a.keys)
    && (a.sha.Some? ==> IsLowerHex(a.sha.value, 64))
    && Shareable(a.privacy) && Shareable(a.redaction) && a.sanitized == Some(true)
  }

  ghost predicate Evidenced(m: ManifestDoc) {
    && m.report.Some? && m.report.value.results.Some? && m.report.value.results.value != []
    && (forall k :: 0 <= k < |m.report.value.results.value| ==> GoodResult(m.report.value.results.value[k]))
    && m.artifacts.Some? && m.artifacts.value != []
    && (forall k :: 0 <= k < |m.artifacts.value| ==> GoodArtifact(m.artifacts.value[k]))
    && GoodClaims(m.claims) && GoodAssurance(m.assurance, m.commit, m.claims)
  }

  ghost predicate ChecklistReady(m: ManifestDoc, contract: Contract) {
    && m.checklist.Some? && Parsed(contract.lines).Some?
    && ReleaseReady(m.checklist.value, contract, Ids(Parsed(contract.lines).value), m.commit, m.tag)
  }

  /** The instant is recorded, and the reading lies within the maximal age after it. */
  ghost predicate Current(recorded: Option<Timestamp>, reading: Timestamp, maxAge: int) {
    && recorded.Some? && recorded.value.At? && reading.At?
    && recorded.value.micros <= reading.micros <= recorded.value.micros + maxAge * SECOND
  }

  ghost predicate InTime(m: ManifestDoc, clock: Clock, maxAge: int) {
    && Current(m.generatedAt, clock.manifest, maxAge)
    && m.report.Some? && Current(m.report.value.generatedAt, clock.report, maxAge)
  }

  // ----- section by section -----------------------------------------------------------------------

  lemma {:induction false} IdentityIff(m: ManifestDoc)
    ensures IdentityErrors(m) == [] <==> Identified(m)
  {
  }

  lemma {:induction false} RunIff(run: Option<RunInfo>)
    ensures RunErrors(run) == [] <==> RunKnown(run)
  {
  }

  lemma {:induction false} StatusIff(m: ManifestDoc)
    ensures StatusErrors(m) == [] && DecisionErrors(m.decision) == [] <==> InOrder(m)
  {
    RunIff(m.run);
  }

  lemma {:induction false} PassIff(id: string, r: CaseResult, current: bool)
    ensures PassErrors(id, r, current) == [] <==> current && r.hasPaths && r.hasArtifacts && !r.dispatchOnly && !r.commandAcceptedOnly
  {
  }

  lemma {:induction false} EntryIff(i: nat, entry: Option<ReportEntry>)
    ensures EntryErrors(i, entry) == [] <==> GoodResult(entry)
  {
    if entry.Some? && entry.value.result.Some? {
      var r := entry.value.result.value;
      PassIff(CaseText(r), r, entry.value.evidenceFresh);
    }
  }

  lemma {:induction false} ResultsIff(results: seq<Option<ReportEntry>>)
    requires results != []
    ensures ResultsErrors(Some(results)) == [] <==> forall k :: 0 <= k < |results| ==> GoodResult(results[k])
  {
    FlattenEmptyIff(EntryErrorLists(results), |results|);
    forall k | 0 <= k < |results|
      ensures EntryErrorLists(results)[k] == [] <==> GoodResult(results[k])
    {
      EntryIff(k, results[k]);
    }
  }

  lemma {:induction false} KeysIff(i: nat, keys: set<ArtifactKey>)
    ensures MissingKeys(i, keys, 6) == [] <==> forall k :: 0 <= k < |ARTIFACT_KEYS| ==> ARTIFACT_KEYS[k] in keys
  {
    var missing := MissingKeys(i, keys, 6);
    if missing == [] {
      forall k | 0 <= k < |ARTIFACT_KEYS|
        ensures ARTIFACT_KEYS[k] in keys
      {
        assert ArtifactMissing(i, ARTIFACT_KEYS[k]) !in missing;
      }
    } else {
      assert missing[0] in missing;
    }
  }

  lemma {:induction false} ArtifactIff(i: nat, a: Artifact)
    ensures ArtifactErrors(i, a) == [] <==> GoodArtifact(a)
  {
    KeysIff(i, a.keys);
    assert |ArtifactErrors(i, a)| >= |MissingKeys(i, a.keys, 6)|;
  }

  lemma {:induction false} ArtifactsIff(artifacts: seq<Artifact>)
    requires artifacts != []
    ensures ArtifactsErrors(Some(artifacts)) == [] <==> forall k :: 0 <= k < |artifacts| ==> GoodArtifact(artifacts[k])
  {
    FlattenEmptyIff(ArtifactErrorLists(artifacts), |artifacts|);
    forall k | 0 <= k < |artifacts|
      ensures ArtifactErrorLists(artifacts)[k] == [] <==> GoodArtifact(artifacts[k])
    {
      ArtifactIff(k, artifacts[k]);
    }
  }

  lemma {:induction false} ClaimSectionIff(m: ManifestDoc)
    ensures ClaimSection(m) == [] <==> GoodClaims(m.claims) && GoodAssurance(m.assurance, m.commit, m.claims)
  {
    ClaimsIff(m.claims);
    AssuranceIff(m.assurance, m.commit, m.claims);
    ThreeListsEmpty(ClaimErrors(m.claims), AssuranceErrors(m.assurance, m.commit, m.claims), []);
  }

  lemma {:induction false} ContentIff(m: ManifestDoc)
    requires m.report.Some?
    ensures ContentErrors(m) == [] <==> Evidenced(m)
  {
    var a, b, c := ResultsErrors(m.report.value.results), ArtifactsErrors(m.artifacts), ClaimSection(m);
    assert ContentErrors(m) == a + b + c && |a + b + c| == |a| + |b| + |c|;
    ClaimSectionIff(m);
    if m.report.value.results.Some? && m.report.value.results.value != [] {
      ResultsIff(m.report.value.results.value);
    }
    if m.artifacts.Some? && m.artifacts.value != [] {
      ArtifactsIff(m.artifacts.value);
    }
  }

  lemma {:induction false} MissingChecklistIsReported(contract: Contract, commit: Option<string>, tag: Option<string>)
    ensures ChecklistErrors(None, contract, commit, tag) != Success([])
  {
  }

  lemma {:induction false} ChecklistIff(m: ManifestDoc, contract: Contract)
    ensures ChecklistErrors(m.checklist, contract, m.commit, m.tag) == Success([]) <==> ChecklistReady(m, contract)
  {
    if m.checklist.Some? {
      RecordAcceptedIff(m.checklist.value, contract, m.commit, m.tag);
    } else {
      MissingChecklistIsReported(contract, m.commit, m.tag);
    }
  }

  lemma {:induction false} CurrentIff(recorded: Option<Timestamp>, reading: Timestamp, maxAge: int)
    ensures AgeFaults(recorded, reading, maxAge) == [] <==> Current(recorded, reading, maxAge)
  {
    if recorded.Some? && recorded.value.At? && reading.At? {
      InstantIsCurrentIff(recorded.value.micros, reading.micros, maxAge);
    }
  }

  lemma {:induction false} CleanIff(m: ManifestDoc, contract: Contract)
    ensures CleanButForTime(m, contract) <==>
      && ChecklistErrors(m.checklist, contract, m.commit, m.tag) == Success([])
      && IdentityErrors(m) == [] && StatusErrors(m) == [] && ContentErrors(m) == [] && DecisionErrors(m.decision) == []
  {
    var checklist := ChecklistErrors(m.checklist, contract, m.commit, m.tag);
    if checklist.Success? {
      var a, b, c := ContentErrors(m), checklist.value, DecisionErrors(m.decision);
      assert |a + b + c| == |a| + |b| + |c|;
    }
  }

  ghost predicate Acceptable(m: ManifestDoc, clock: Clock, maxAge: int, contract: Contract) {
    Identified(m) && InOrder(m) && Evidenced(m) && ChecklistReady(m, contract) && InTime(m, clock, maxAge)
  }

  /** A validation accepts a manifest if and only if it is identified and in order, its evidence is
      good, its checklist is release-ready, and the readings of the clock are in time. */
  lemma {:induction false} ManifestAcceptedIff(m: ManifestDoc, clock: Clock, maxAge: int, contract: Contract)
    ensures Accepts(m, clock, maxAge, contract) <==> Acceptable(m, clock, maxAge, contract)
  {
    AcceptsIff(m, clock, maxAge, contract);
    CleanIff(m, contract);
    IdentityIff(m);
    StatusIff(m);
    ChecklistIff(m, contract);
    MissingReportIsReported(m);
    CurrentIff(m.generatedAt, clock.manifest, maxAge);
    if m.report.Some? {
      ContentIff(m);
      CurrentIff(m.report.value.generatedAt, clock.report, maxAge);
    }
  }
}
