/** When a build decides `pass`, in terms of what it is given. */
module ManifestDecision {
  import opened Basics
  import opened ChecklistParser
  import opened ChecklistRegistry
  import opened ChecklistPipeline
  import opened ChecklistRecord
  import opened ChecklistTheorems
  import opened BuilderTheorems
  import opened ReleaseClaims
  import opened Manifest
  import opened ManifestTheorems
  import opened ManifestAcceptance
  import opened ManifestPrivacy

  // ----- results that make a release-ready record -------------------------------------------------

  /** The result names its item and may be released. */
  ghost predicate ReadyEntry(entry: Option<ResultItem>, registered: RegistryItem, default: Option<Phase>,
                             collected: bool, commit: Option<string>, tag: Option<string>) {
    && entry.Some? && entry.value.id == registered.id
    && ReadyResult(entry.value.fields, registered, PhaseOf(registered, default), collected, commit, tag)
  }

  ghost predicate ReadyEntries(entries: seq<Option<ResultItem>>, items: seq<RegistryItem>, default: Option<Phase>,
                               collected: bool, commit: Option<string>, tag: Option<string>) {
    |entries| == |items| && forall k :: 0 <= k < |items| ==> ReadyEntry(entries[k], items[k], default, collected, commit, tag)
  }

  /** Results for this release, one ready result per checklist item, in checklist order. */
  ghost predicate ReadyResults(results: Option<Results>, commit: Option<string>, tag: Option<string>, contract: Contract) {
    && Parsed(contract.lines).Some? && LoadedContract(contract, Ids(Parsed(contract.lines).value))
    && results.Some? && ForThisRelease(results.value, commit, tag) && results.value.items.Some?
    && ReadyEntries(results.value.items.value, RegisteredItems(contract), contract.registry.value.defaultPhase,
                    results.value.collector.Some?, commit, tag)
  }

  ghost predicate CleanRecord(results: Option<Results>, commit: Option<string>, tag: Option<string>, contract: Contract) {
    && BuildRecord(results, commit, tag, contract).Success?
    && ChecklistErrors(Some(BuildRecord(results, commit, tag, contract).value), contract, commit, tag) == Success([])
  }

  function JoinOf(result: ResultItem, registered: RegistryItem, default: Option<Phase>): RecordItem {
    RecordItem(registered.id, registered.disposition, PhaseOf(registered, default),
               Some(result.fields.(reviewer := Keep(result.fields.reviewer))))
  }

  /** A result joins without a fault exactly when it is ready. */
  lemma {:induction false} ReadyIff(i: nat, result: ResultItem, registered: RegistryItem, default: Option<Phase>,
                 collected: bool, commit: Option<string>, tag: Option<string>)
    requires registered.id.Some? && SoundItem(registered, default)
    ensures (Joins(result, registered, default, JoinOf(result, registered, default))
             && BuiltItemErrors(i, result.fields, registered, collected, commit, tag) == []) <==>
      ReadyEntry(Some(result), registered, default, collected, commit, tag)
  {
    var f, id := result.fields, registered.id.value;
    var x := if collected then CollectedErrors(i, f, commit, tag) else [];
    var u := UnavailableError(id, registered);
    var b := if f.state == Some(Blocked) then [ResultBlocks(id, "blocked")] else [];
    assert |x + u + b| == |x| + |u| + |b|;
    var available: bool := registered.subject.value.available.value;
    assert registered.subject.value.available == Some(if available then true else false);
    assert u == [] <==> registered.subject.value.available == Some(true);
    if collected {
      CollectedIff(i, f, commit, tag);
    }
  }

  lemma {:induction false} CollectedIff(i: nat, f: ResultFields, commit: Option<string>, tag: Option<string>)
    ensures CollectedErrors(i, f, commit, tag) == [] <==>
      && f.receiptSha.Some? && IsLowerHex(f.receiptSha.value, 64) && f.commit == commit && f.tag == tag
      && f.observedAt.Some? && f.observedAt.value.At?
  {
  }

  lemma {:induction false} ReadyListIsClean(entries: seq<ResultItem>, items: seq<RegistryItem>, default: Option<Phase>, ids: seq<string>,
                         collected: bool, commit: Option<string>, tag: Option<string>) returns (combined: seq<RecordItem>)
    requires Covers(items, default, ids) && ReadyEntries(Entries(entries), items, default, collected, commit, tag)
    ensures JoinedList(entries, items, default, combined)
    ensures Flatten(BuiltErrorLists(entries, items, collected, commit, tag), |entries|) == []
  {
    combined := seq(|items|, k requires 0 <= k < |items| => JoinOf(entries[k], items[k], default));
    forall k | 0 <= k < |items|
      ensures Joins(entries[k], items[k], default, combined[k])
      ensures BuiltErrorLists(entries, items, collected, commit, tag)[k] == []
    {
      assert ReadyEntry(Entries(entries)[k], items[k], default, collected, commit, tag);
      ReadyIff(k, entries[k], items[k], default, collected, commit, tag);
    }
    FlattenEmptyIff(BuiltErrorLists(entries, items, collected, commit, tag), |entries|);
  }

  lemma {:induction false} CleanListIsReady(entries: seq<ResultItem>, items: seq<RegistryItem>, default: Option<Phase>, ids: seq<string>,
                         combined: seq<RecordItem>, collected: bool, commit: Option<string>, tag: Option<string>)
    requires Covers(items, default, ids) && JoinedList(entries, items, default, combined)
    requires Flatten(BuiltErrorLists(entries, items, collected, commit, tag), |entries|) == []
    ensures ReadyEntries(Entries(entries), items, default, collected, commit, tag)
  {
    FlattenEmptyIff(BuiltErrorLists(entries, items, collected, commit, tag), |entries|);
    forall k | 0 <= k < |items|
      ensures ReadyEntry(Entries(entries)[k], items[k], default, collected, commit, tag)
    {
      assert Joins(entries[k], items[k], default, combined[k]);
      assert BuiltErrorLists(entries, items, collected, commit, tag)[k] == [];
      ReadyIff(k, entries[k], items[k], default, collected, commit, tag);
    }
  }

  lemma {:induction false} CleanIsReady(results: Option<Results>, commit: Option<string>, tag: Option<string>, contract: Contract)
    requires CleanRecord(results, commit, tag, contract)
    ensures ReadyResults(results, commit, tag, contract)
  {
    var ids, entries, combined := BuiltRecordErrors(results, commit, tag, contract);
    CleanListIsReady(entries, RegisteredItems(contract), contract.registry.value.defaultPhase, ids, combined,
                     results.value.collector.Some?, commit, tag);
  }

  lemma {:induction false} AllGiven(entries: seq<Option<ResultItem>>) returns (objects: seq<ResultItem>)
    requires forall k :: 0 <= k < |entries| ==> entries[k].Some?
    ensures entries == Entries(objects)
  {
    objects := seq(|entries|, k requires 0 <= k < |entries| => entries[k].value);
  }

  lemma {:induction false} ReadyIsClean(results: Option<Results>, commit: Option<string>, tag: Option<string>, contract: Contract)
    requires ReadyResults(results, commit, tag, contract)
    ensures CleanRecord(results, commit, tag, contract)
  {
    var ids := Ids(Parsed(contract.lines).value);
    var items, default, collected := RegisteredItems(contract), contract.registry.value.defaultPhase, results.value.collector.Some?;
    var given := results.value.items.value;
    assert forall k :: 0 <= k < |items| ==> ReadyEntry(given[k], items[k], default, collected, commit, tag);
    var entries := AllGiven(given);
    var combined := ReadyListIsClean(entries, items, default, ids, collected, commit, tag);
    BuildableIsBuilt(results, commit, tag, contract, ids, entries, combined);
    BuildableErrors(results, commit, tag, contract, ids, entries, combined);
  }

  // ----- the decision -----------------------------------------------------------------------------

  /** What a build that decides pass is given. */
  ghost predicate PassInput(input: BuildInput, generatedAt: Timestamp, clock: Clock, contract: Contract) {
    && IsLowerHex(input.commit, 40) && "v" <= input.tag && IsChecksum(input.checksum)
    && RunKnown(Some(input.run)) && input.cleanupStatus == "pass" && input.issues != []
    && input.report.schema == Some(REPORT_SCHEMA)
    && GoodEvidence(input)
    && ReadyResults(input.results, Some(input.commit), Some(input.tag), contract)
    && Current(Some(generatedAt), clock.manifest, DEFAULT_MAX_AGE)
    && Current(input.report.generatedAt, clock.report, DEFAULT_MAX_AGE)
  }

  ghost predicate GoodEvidence(input: BuildInput) {
    && input.report.results.Some? && input.report.results.value != []
    && (forall k :: 0 <= k < |input.report.results.value| ==> GoodResult(input.report.results.value[k]))
    && input.artifacts != [] && (forall k :: 0 <= k < |input.artifacts| ==> GoodArtifact(input.artifacts[k]))
    && GoodClaims(Some(input.claims)) && GoodAssurance(input.assurance, Some(input.commit), Some(input.claims))
  }

  lemma {:induction false} GoodEvidenceIsShareable(input: BuildInput)
    requires GoodEvidence(input)
    ensures Shareable(Some(DerivePrivacy(input.report, input.artifacts))) && Shareable(Some(DeriveRedaction(input.artifacts)))
  {
    assert ReportShareable(input.report);
    forall k | 0 <= k < |input.artifacts|
      ensures !UnsafeArtifact(input.artifacts[k])
    {
      assert GoodArtifact(input.artifacts[k]);
      assert ARTIFACT_KEYS[3] == PrivacyKey && ARTIFACT_KEYS[4] == RedactionKey && ARTIFACT_KEYS[5] == SanitizedKey;
    }
    DerivedStatuses(input);
  }

  /** A draft is acceptable exactly when its input is as it should be and its record is clean. */
  lemma {:induction false} DraftAcceptableIff(input: BuildInput, generatedAt: Timestamp, record: Record, clock: Clock, contract: Contract)
    ensures Acceptable(Draft(input, generatedAt, record), clock, DEFAULT_MAX_AGE, contract) <==>
      && IsLowerHex(input.commit, 40) && "v" <= input.tag && IsChecksum(input.checksum)
      && RunKnown(Some(input.run)) && input.cleanupStatus == "pass" && input.issues != []
      && input.report.schema == Some(REPORT_SCHEMA) && GoodEvidence(input)
      && ChecklistErrors(Some(record), contract, Some(input.commit), Some(input.tag)) == Success([])
      && Current(Some(generatedAt), clock.manifest, DEFAULT_MAX_AGE)
      && Current(input.report.generatedAt, clock.report, DEFAULT_MAX_AGE)
  {
    var m := Draft(input, generatedAt, record);
    ChecklistIff(m, contract);
    DraftIdentifiedIff(input, generatedAt, record);
    DraftEvidencedIff(input, generatedAt, record);
    if GoodEvidence(input) {
      DraftInOrderIff(input, generatedAt, record);
    }
  }

  lemma {:induction false} DraftIdentifiedIff(input: BuildInput, generatedAt: Timestamp, record: Record)
    ensures Identified(Draft(input, generatedAt, record)) <==>
      IsLowerHex(input.commit, 40) && "v" <= input.tag && IsChecksum(input.checksum)
  {
  }

  lemma {:induction false} DraftEvidencedIff(input: BuildInput, generatedAt: Timestamp, record: Record)
    ensures Evidenced(Draft(input, generatedAt, record)) <==> GoodEvidence(input)
  {
  }

  lemma {:induction false} DraftInOrderIff(input: BuildInput, generatedAt: Timestamp, record: Record)
    requires GoodEvidence(input)
    ensures InOrder(Draft(input, generatedAt, record)) <==>
      RunKnown(Some(input.run)) && input.cleanupStatus == "pass" && input.issues != [] && input.report.schema == Some(REPORT_SCHEMA)
  {
    GoodEvidenceIsShareable(input);
  }

  lemma {:induction false} PassIffNoErrors(errors: seq<Blocker>)
    ensures DeriveDecision(errors) == PassDecision <==> errors == []
  {
  }

  ghost predicate DecidesPass(input: BuildInput, generatedAt: Timestamp, clock: Clock, contract: Contract) {
    var built := Build(input, generatedAt, clock, contract);
    built.Success? && built.value.decision.Some? && built.value.decision.value.state == Some(PassDecision)
  }

  lemma {:induction false} PassesIffAccepted(input: BuildInput, generatedAt: Timestamp, clock: Clock, contract: Contract)
    requires BuildRecord(input.results, Some(input.commit), Some(input.tag), contract).Success?
    ensures DecidesPass(input, generatedAt, clock, contract) <==>
      Accepts(Draft(input, generatedAt, BuildRecord(input.results, Some(input.commit), Some(input.tag), contract).value),
              clock, DEFAULT_MAX_AGE, contract)
  {
    BuildStopsOnlyInTheRecord(input, generatedAt, clock, contract);
    var record := BuildRecord(input.results, Some(input.commit), Some(input.tag), contract).value;
    var errors := ManifestErrors(Draft(input, generatedAt, record), clock, DEFAULT_MAX_AGE, contract).value;
    PassIffNoErrors(errors);
  }

  /** A build decides pass if and only if its inputs call for it. */
  lemma {:induction false} DecidesPassIff(input: BuildInput, generatedAt: Timestamp, clock: Clock, contract: Contract)
    ensures DecidesPass(input, generatedAt, clock, contract) <==> PassInput(input, generatedAt, clock, contract)
  {
    var commit, tag := Some(input.commit), Some(input.tag);
    if ReadyResults(input.results, commit, tag, contract) {
      ReadyIsClean(input.results, commit, tag, contract);
    }
    if CleanRecord(input.results, commit, tag, contract) {
      CleanIsReady(input.results, commit, tag, contract);
    }
    BuildStopsOnlyInTheRecord(input, generatedAt, clock, contract);
    if BuildRecord(input.results, commit, tag, contract).Success? {
      var record := BuildRecord(input.results, commit, tag, contract).value;
      PassesIffAccepted(input, generatedAt, clock, contract);
      ManifestAcceptedIff(Draft(input, generatedAt, record), clock, DEFAULT_MAX_AGE, contract);
      DraftAcceptableIff(input, generatedAt, record, clock, contract);
    }
  }
}
