/**
  The commands of the release manifest script, each with what it computes and with the condition, on
  what it is given, under which it accepts.
 */
module ReleaseCommands {
  import opened Basics
  import opened ChecklistParser
  import opened ChecklistRegistry
  import opened ChecklistPipeline
  import opened ChecklistRecord
  import opened ChecklistTheorems
  import opened CollectorTheorems
  import opened BuilderTheorems
  import opened ReleaseClaims
  import opened Manifest
  import opened ManifestTheorems
  import opened ManifestAcceptance
  import opened ManifestPrivacy
  import opened ManifestQuotes
  import opened ManifestDecision

  lemma {:induction false} CollectsIff(receiptIndex: Option<Payload>, humanResults: Option<Payload>, commit: string, tag: string,
                    contract: Contract, now: Readings)
    ensures Collect(receiptIndex, humanResults, commit, tag, contract, now).Success? <==> exists ids, receipts, humans, collected ::
      Collectable(receiptIndex, humanResults, commit, tag, contract, now, ids, receipts, humans, collected)
  {
    if Collect(receiptIndex, humanResults, commit, tag, contract, now).Success? {
      var ids, receipts, humans, collected := CollectedWasCollectable(receiptIndex, humanResults, commit, tag, contract, now);
    }
    if ids, receipts, humans, collected :|
        Collectable(receiptIndex, humanResults, commit, tag, contract, now, ids, receipts, humans, collected) {
      CollectableIsCollected(receiptIndex, humanResults, commit, tag, contract, now, ids, receipts, humans, collected);
    }
  }

  method CollectChecklistResults(receiptIndex: Option<Payload>, humanResults: Option<Payload>, commit: string, tag: string,
                                 contract: Contract, now: Readings) returns (r: Result<Results, Stop>)
    ensures r == Collect(receiptIndex, humanResults, commit, tag, contract, now)
    ensures r.Success? <==> exists ids, receipts, humans, collected ::
      Collectable(receiptIndex, humanResults, commit, tag, contract, now, ids, receipts, humans, collected)
  {
    CollectsIff(receiptIndex, humanResults, commit, tag, contract, now);
    if !IsLowerHex(commit, 40) {
      return Failure(Exit(BadCommit));
    }
    if !("v" <= tag) {
      return Failure(Exit(BadTag));
    }
    var loaded := LoadChecklistContract(contract);
    if loaded.Failure? {
      return Failure(loaded.error);
    }
    LoadContractIsSound(contract);
    var items := ObjectsOf(contract.registry.value.items.value);
    var receipts := PayloadItems(receiptIndex, ReceiptIndexV1, ReceiptIndex, IdsWhere(items, false), commit, tag);
    if receipts.Failure? {
      return Failure(receipts.error);
    }
    var humans := PayloadItems(humanResults, HumanResultsV1, HumanResults, IdsWhere(items, true), commit, tag);
    if humans.Failure? {
      return Failure(humans.error);
    }
    PayloadsAreUsable(items, receipts.value, humans.value);
    var collected := CollectLoop(items, receipts.value, humans.value, contract.registry.value.defaultPhase, commit, tag, now);
    if collected.Failure? {
      return Failure(collected.error);
    }
    return Success(CollectedResults(collected.value, commit, tag));
  }

  lemma {:induction false} BuildsIff(results: Option<Results>, commit: Option<string>, tag: Option<string>, contract: Contract)
    ensures BuildRecord(results, commit, tag, contract).Success? <==>
      exists ids, entries, combined :: Buildable(results, commit, tag, contract, ids, entries, combined)
  {
    if BuildRecord(results, commit, tag, contract).Success? {
      var ids, entries, combined := BuiltWasBuildable(results, commit, tag, contract);
    }
    if ids, entries, combined :| Buildable(results, commit, tag, contract, ids, entries, combined) {
      BuildableIsBuilt(results, commit, tag, contract, ids, entries, combined);
    }
  }

  method BuildChecklistRecord(results: Option<Results>, commit: Option<string>, tag: Option<string>, contract: Contract)
    returns (r: Result<Record, Stop>)
    ensures r == BuildRecord(results, commit, tag, contract)
    ensures r.Success? <==> exists ids, entries, combined :: Buildable(results, commit, tag, contract, ids, entries, combined)
  {
    BuildsIff(results, commit, tag, contract);
    var loaded := LoadChecklistContract(contract);
    if loaded.Failure? {
      return Failure(loaded.error);
    }
    LoadContractIsSound(contract);
    var header := HeaderFault(results, commit, tag);
    if header.Some? {
      return Failure(header.value);
    }
    var entries := results.value.items.value;
    var cover := CoverFault(ResultIds(entries), loaded.value);
    if cover.Some? {
      return Failure(cover.value);
    }
    var combined := BuildLoop(entries, ObjectsOf(contract.registry.value.items.value), contract.registry.value.defaultPhase);
    if combined.Failure? {
      return Failure(combined.error);
    }
    return Success(MakeRecord(combined.value, results.value.collector.Some?, contract, commit, tag));
  }

  method ChecklistBlockers(checklist: Option<Record>, contract: Contract, commit: Option<string>, tag: Option<string>)
    returns (r: Result<seq<Blocker>, Stop>)
    ensures r == ChecklistErrors(checklist, contract, commit, tag)
    ensures r == Success([]) <==>
      && checklist.Some? && Parsed(contract.lines).Some?
      && ReleaseReady(checklist.value, contract, Ids(Parsed(contract.lines).value), commit, tag)
  {
    if checklist.Some? {
      RecordAcceptedIff(checklist.value, contract, commit, tag);
    }
    if checklist.None? {
      return Success([ResultsMissing]);
    }
    var record := checklist.value;
    var canonical := LoadChecklistItems(contract.lines);
    if canonical.Failure? {
      return Success(RecordHeaderErrors(record) + [ContractUnreadable]);
    }
    var registryErrors := RegistryBlockers(contract.registry, canonical.value);
    if registryErrors.Failure? {
      return registryErrors;
    }
    var errors := RecordHeaderErrors(record) + registryErrors.value + HashErrors(record, contract)
                + BindingErrors(record.collection, commit, tag);
    if record.items.None? {
      return Success(errors + [ItemsNotList]);
    }
    var entries := record.items.value;
    errors := errors + if record.itemCount != Some(|entries|) then [ItemCount] else [];
    var idErrors := RecordIdErrors(Ids(canonical.value), RecordIds(entries));
    if idErrors.Failure? {
      return idErrors;
    }
    if !Indexable(contract.registry) {
      return Failure(Crash);
    }
    var body := ItemBlockers(record, entries, contract.registry.value, commit, tag);
    return Success(errors + idErrors.value + body);
  }

  method ManifestBlockers(m: ManifestDoc, clock: Clock, maxAge: int, contract: Contract) returns (r: Result<seq<Blocker>, Stop>)
    ensures r == ManifestErrors(m, clock, maxAge, contract)
    ensures r == Success([]) <==> Acceptable(m, clock, maxAge, contract)
  {
    ManifestAcceptedIff(m, clock, maxAge, contract);
    var errors := IdentityErrors(m) + ManifestAgeErrors(AgeFaults(m.generatedAt, clock.manifest, maxAge)) + StatusErrors(m)
                + ReportAgeErrors(ReportAgeFaults(m.report, clock.report, maxAge));
    var results: seq<Blocker> := [];
    if m.report.Some? {
      results := ReportResultBlockers(m.report.value.results);
    }
    var artifacts := EvidenceArtifactBlockers(m.artifacts);
    var claims := ClaimBlockers(m.claims);
    var assurance := AssuranceBlockers(m.assurance, m.commit, m.claims);
    var checklist := ChecklistBlockers(m.checklist, contract, m.commit, m.tag);
    if checklist.Failure? {
      return checklist;
    }
    return Success(errors + (results + artifacts + (claims + assurance) + checklist.value + DecisionErrors(m.decision)));
  }

  function DecisionOf(m: ManifestDoc): Option<DecisionKind> {
    if m.decision.Some? then m.decision.value.state else None
  }

  lemma {:induction false} BuildDecides(input: BuildInput, generatedAt: Timestamp, clock: Clock, contract: Contract)
    ensures
      var r := Build(input, generatedAt, clock, contract);
      && (r.Success? <==> BuildRecord(input.results, Some(input.commit), Some(input.tag), contract).Success?)
      && ((r.Success? && DecisionOf(r.value) == Some(PassDecision)) <==> PassInput(input, generatedAt, clock, contract))
      && (r.Success? ==>
            (DecisionOf(r.value) == Some(BlockedForPrivacy) <==> UnsafeEvidence(input) || InputQuotes(input, generatedAt, clock, contract)))
  {
    BuildStopsOnlyInTheRecord(input, generatedAt, clock, contract);
    DecidesPassIff(input, generatedAt, clock, contract);
    if Build(input, generatedAt, clock, contract).Success? {
      PrivacyDecisionIff(input, generatedAt, clock, contract);
    }
  }

  method BuildManifest(input: BuildInput, generatedAt: Timestamp, clock: Clock, contract: Contract) returns (r: Result<ManifestDoc, Stop>)
    ensures r == Build(input, generatedAt, clock, contract)
    ensures r.Success? <==> BuildRecord(input.results, Some(input.commit), Some(input.tag), contract).Success?
    ensures (r.Success? && DecisionOf(r.value) == Some(PassDecision)) <==> PassInput(input, generatedAt, clock, contract)
    ensures r.Success? ==>
      (DecisionOf(r.value) == Some(BlockedForPrivacy) <==> UnsafeEvidence(input) || InputQuotes(input, generatedAt, clock, contract))
  {
    BuildDecides(input, generatedAt, clock, contract);
    var record := BuildChecklistRecord(input.results, Some(input.commit), Some(input.tag), contract);
    if record.Failure? {
      return Failure(record.error);
    }
    var manifest := Draft(input, generatedAt, record.value);
    // The check of a record that was just built always returns.
    var errors := ManifestBlockers(manifest, clock, DEFAULT_MAX_AGE, contract);
    manifest := manifest.(decision := Some(Decision(Some(DeriveDecision(errors.value)), errors.value)));
    return Success(manifest);
  }
}
