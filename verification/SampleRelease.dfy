/**
  A release with one checklist item, in full: the conditions under which a build passes can be met,
  and the two ways in which a build decides otherwise than its evidence suggests do occur.
 */
module SampleRelease {
  import opened Basics
  import opened ChecklistParser
  import opened ChecklistRegistry
  import opened ChecklistPipeline
  import opened ReleaseClaims
  import opened Manifest
  import opened ManifestTheorems
  import opened ManifestAcceptance
  import opened ManifestPrivacy
  import opened ManifestQuotes
  import opened ManifestDecision

  // ----- the contract -----------------------------------------------------------------------------

  const ITEM := RegistryItem(Some("A"), Some(Machine), Some(Subject(Some(CommandSubject), Some("make"), Some(true), None)), None, None)

  function Lines(): seq<string> {
    [MARKER_OPEN + "A" + MARKER_CLOSE, ENTRY_OPEN + "x"]
  }

  function SampleContract(): Contract {
    Contract(Lines(), "c", Some(Registry(Some(RegistryV2), Some(CHECKLIST_PATH), Some(PrePublish), Some([Some(ITEM)]))), "r")
  }

  lemma {:induction false} ClassifyMarker(line: string, id: string)
    requires line == MARKER_OPEN + id + MARKER_CLOSE && IsStableId(id)
    ensures Classify(line) == Some(Marker(id))
  {
    assert line[..|MARKER_OPEN|] == MARKER_OPEN;
    assert line[|line| - |MARKER_CLOSE|..] == MARKER_CLOSE;
    assert line[|MARKER_OPEN|..|line| - |MARKER_CLOSE|] == id;
  }

  lemma {:induction false} ClassifyEntry(line: string, text: string)
    requires line == ENTRY_OPEN + text
    ensures Classify(line) == Some(Entry(Strip(text)))
  {
    assert line[..|ENTRY_OPEN|] == ENTRY_OPEN && line[|ENTRY_OPEN|..] == text;
    assert MarkerBody(line).None? by {
      if |MARKER_OPEN| <= |line| {
        assert line[..|MARKER_OPEN|][0] == line[0] == '-';
        assert MARKER_OPEN[0] == '<';
      }
    }
  }

  lemma {:induction false} TwoEvents(kinds: seq<Option<Kind>>, id: string, summary: string)
    requires kinds == [Some(Marker(id)), Some(Entry(summary))]
    ensures Events(kinds, 2) == [Event(Marker(id), 1), Event(Entry(summary), 2)]
  {
    assert Events(kinds, 0) == [];
    assert Events(kinds, 1) == [Event(Marker(id), 1)];
  }

  lemma {:induction false} SampleParses()
    ensures Parsed(Lines()).Some? && Ids(Parsed(Lines()).value) == ["A"]
  {
    ClassifyMarker(Lines()[0], "A");
    ClassifyEntry(Lines()[1], "x");
    var kinds := Kinds(Lines());
    assert kinds == [Some(Marker("A")), Some(Entry(Strip("x")))];
    TwoEvents(kinds, "A", Strip("x"));
    var ev := FileEvents(Lines());
    assert Alternates(ev);
    assert Ids(Pairs(ev)) == ["A"];
  }

  lemma {:induction false} SampleLoads()
    ensures Parsed(SampleContract().lines).Some? && Ids(Parsed(SampleContract().lines).value) == ["A"]
    ensures LoadedContract(SampleContract(), ["A"]) && RegisteredItems(SampleContract()) == [ITEM]
  {
    SampleParses();
    var contract := SampleContract();
    assert SoundItem(ITEM, Some(PrePublish));
    RegistryAcceptedIff(contract.registry, ["A"]);
    SoundRegistryCovers(contract, ["A"]);
    assert RegisteredItems(contract) == [ITEM];
  }

  // ----- the input --------------------------------------------------------------------------------

  function Repeat(c: char, n: nat): (s: string)
    ensures |s| == n && forall i :: 0 <= i < n ==> s[i] == c
  {
    seq(n, _ => c)
  }

  const FIELDS := ResultFields(Some(Pass), Some("receipt"), None, None, None, None, None)

  function SampleResults(): Results {
    Results(Some(ResultsV2), None, None, None, Some([Some(ResultItem(Some("A"), FIELDS))]))
  }

  const ARTIFACT := Artifact({IdKey, PathKey, ShaKey, PrivacyKey, RedactionKey, SanitizedKey}, None, Some(Safe), Some(Safe), Some(true))

  /** A report with one result of the given case and outcome, all of it safe to share. */
  function SampleReport(caseId: string, outcome: Option<Outcome>): Report {
    Report(Some(REPORT_SCHEMA), Some(At(0)), Some([Some(ReportEntry(Some(CaseResult(Some(caseId), outcome, Some(Safe), true, true, false, false)), true))]))
  }

  function Sample(caseId: string, outcome: Option<Outcome>): BuildInput {
    BuildInput(SampleReport(caseId, outcome), "v1", Repeat('a', 40), "sha256:" + Repeat('a', 64),
               RunInfo(Some("url"), None, Some(Runner(Some("linux"), ["self-hosted"]))),
               [ARTIFACT], [SampleClaim()], Some(SampleAssurance()), Some(SampleResults()), [1], "pass")
  }

  function SampleClaim(): Claim {
    Claim(Some("claim"), Some(PassDecision),
          Some(History(None, None, Some(StageEvidence(Some(Repeat('a', 40)), Some("2026-01-01"), Some("path"), Some("summary"))))),
          false, Some("new"))
  }

  function SampleAssurance(): OperabilityAssurance {
    OperabilityAssurance(Some(InteractiveRuntime), Some(Repeat('a', 40)), Some("interactive_runtime"),
                         Some(RuntimeReceipt(Some("pass"), Some("receipt"))), NotGiven, None, None, None)
  }

  lemma {:induction false} ClaimsAreGood()
    ensures GoodClaims(Some([SampleClaim()])) && GoodAssurance(Some(SampleAssurance()), Some(Repeat('a', 40)), Some([SampleClaim()]))
  {
    assert DateShape("2026-01-01");
    assert IsLowerHex(Repeat('a', 40), 40);
    assert GoodClaim(SampleClaim());
    assert GoodRuntime(SampleAssurance());
  }

  lemma {:induction false} SampleResultsAreReady(commit: string, tag: string)
    ensures ReadyResults(Some(SampleResults()), Some(commit), Some(tag), SampleContract())
  {
    SampleLoads();
    var entry := Some(ResultItem(Some("A"), FIELDS));
    assert ReadyEntry(entry, ITEM, Some(PrePublish), false, Some(commit), Some(tag));
    assert SampleResults().items.value == [entry];
  }

  lemma {:induction false} ChecksumIsGood()
    ensures IsChecksum("sha256:" + Repeat('a', 64))
  {
    var s := "sha256:" + Repeat('a', 64);
    assert s[7..] == Repeat('a', 64);
  }

  lemma {:induction false} ArtifactIsGood()
    ensures GoodArtifact(ARTIFACT) && !UnsafeArtifact(ARTIFACT)
  {
  }

  lemma {:induction false} SampleEvidenceIs(caseId: string, outcome: Option<Outcome>)
    ensures !UnsafeEvidence(Sample(caseId, outcome))
    ensures GoodEvidence(Sample(caseId, outcome)) <==> outcome.None? || outcome.value.Passed? || outcome.value.OtherOutcome?
  {
    var input := Sample(caseId, outcome);
    ArtifactIsGood();
    ClaimsAreGood();
    assert input.artifacts == [ARTIFACT];
    var entry := Some(ReportEntry(Some(CaseResult(Some(caseId), outcome, Some(Safe), true, true, false, false)), true));
    assert input.report.results.value == [entry];
    assert EntryShareable(entry);
    assert GoodResult(entry) <==> outcome.None? || outcome.value.Passed? || outcome.value.OtherOutcome?;
    assert forall k :: 0 <= k < |input.report.results.value| ==> input.report.results.value[k] == entry;
    if GoodEvidence(input) {
      assert GoodResult(input.report.results.value[0]);
    }
  }

  // ----- what the build decides -------------------------------------------------------------------

  lemma {:induction false} SampleInputIff(caseId: string, outcome: Option<Outcome>, input: BuildInput)
    requires input == Sample(caseId, outcome)
    ensures PassInput(input, At(0), Still(At(0)), SampleContract()) <==>
      outcome.None? || outcome.value.Passed? || outcome.value.OtherOutcome?
  {
    SampleResultsAreReady(input.commit, input.tag);
    SampleEvidenceIs(caseId, outcome);
    SampleFramesPass(input, caseId, outcome);
  }

  lemma {:induction false} SampleFramesPass(input: BuildInput, caseId: string, outcome: Option<Outcome>)
    requires input == Sample(caseId, outcome)
    ensures IsLowerHex(input.commit, 40) && "v" <= input.tag && IsChecksum(input.checksum) && RunKnown(Some(input.run))
    ensures input.cleanupStatus == "pass" && input.issues != [] && input.report.schema == Some(REPORT_SCHEMA)
    ensures Current(input.report.generatedAt, At(0), DEFAULT_MAX_AGE) && input.results == Some(SampleResults())
  {
    ChecksumIsGood();
  }

  /** The sample passes if and only if its one result is a pass or has no known outcome at all. */
  lemma {:induction false} SamplePassesIff(caseId: string, outcome: Option<Outcome>)
    ensures DecidesPass(Sample(caseId, outcome), At(0), Still(At(0)), SampleContract()) <==>
      outcome.None? || outcome.value.Passed? || outcome.value.OtherOutcome?
  {
    SampleInputIff(caseId, outcome, Sample(caseId, outcome));
    DecidesPassIff(Sample(caseId, outcome), At(0), Still(At(0)), SampleContract());
  }

  /** A result without an outcome is not held against the release: the build passes and the manifest
      it returns is accepted. */
  lemma {:induction false} MissingOutcomeIsAccepted(caseId: string)
    ensures
      var built := Build(Sample(caseId, None), At(0), Still(At(0)), SampleContract());
      built.Success? && Accepts(built.value, Still(At(0)), DEFAULT_MAX_AGE, SampleContract())
  {
    SamplePassesIff(caseId, None);
    BuildIsAFixedPoint(Sample(caseId, None), At(0), Still(At(0)), SampleContract());
  }

  lemma {:induction false} StartsWithWord(s: string, rest: string)
    requires s == "privacy" + rest
    ensures Mentions(s)
  {
    assert s[0..7] == "privacy";
    assert OccursAt(s, "privacy", 0);
  }

  /** A skipped case about a privacy dialogue, with nothing unsafe to share: the build is blocked for
      privacy, not for the skipped case. */
  lemma {:induction false} SafeEvidenceCanBeBlockedForPrivacy(caseId: string, input: BuildInput)
    requires caseId == "privacy" + "-dialogue" && input == Sample(caseId, Some(Skipped))
    ensures !UnsafeEvidence(input)
    ensures
      var built := Build(input, At(0), Still(At(0)), SampleContract());
      built.Success? && built.value.decision.Some? && built.value.decision.value.state == Some(BlockedForPrivacy)
  {
    StartsWithWord(caseId, "-dialogue");
    SampleEvidenceIs(caseId, Some(Skipped));
    assert input.report.results.value[0].value.result.value.caseId == Some(caseId);
    assert CaseQuotes(input.report.results.value[0]);
    SampleResultsAreReady(input.commit, input.tag);
    ReadyIsClean(input.results, Some(input.commit), Some(input.tag), SampleContract());
    BuildStopsOnlyInTheRecord(input, At(0), Still(At(0)), SampleContract());
    PrivacyDecisionIff(input, At(0), Still(At(0)), SampleContract());
  }
}
