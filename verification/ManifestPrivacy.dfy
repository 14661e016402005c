/** Which errors are worded about privacy: those about unsafe evidence and no others. */
module ManifestPrivacy {
  import opened Basics
  import opened ChecklistParser
  import opened ChecklistRegistry
  import opened ChecklistPipeline
  import opened ChecklistRecord
  import opened ReleaseClaims
  import opened Manifest

  ghost predicate UnsafeArtifact(a: Artifact) {
    || !Shareable(a.privacy) || !Shareable(a.redaction) || a.sanitized != Some(true)
    || PrivacyKey !in a.keys || RedactionKey !in a.keys || SanitizedKey !in a.keys
  }

  /** Some benchmark result or some artifact may not be shared. */
  ghost predicate UnsafeEvidence(input: BuildInput) {
    !ReportShareable(input.report) || exists k :: 0 <= k < |input.artifacts| && UnsafeArtifact(input.artifacts[k])
  }

  ghost predicate SomeWorded(errors: seq<Blocker>) {
    exists b :: b in errors && PrivacyWorded(b)
  }

  ghost predicate SomeQuote(errors: seq<Blocker>) {
    exists b :: b in errors && QuotesWord(b)
  }

  lemma {:induction false} DecisionIff(errors: seq<Blocker>)
    ensures DeriveDecision(errors) == BlockedForPrivacy <==> SomeWorded(errors) || SomeQuote(errors)
  {
    if b :| b in errors && (PrivacyWorded(b) || QuotesWord(b)) {
      var k :| 0 <= k < |errors| && errors[k] == b;
    }
  }

  lemma {:induction false} WordedPair(a: seq<Blocker>, b: seq<Blocker>)
    ensures SomeWorded(a + b) <==> SomeWorded(a) || SomeWorded(b)
  {
    assert forall x :: x in a + b <==> x in a || x in b;
  }

  lemma {:induction false} WordedThree(a: seq<Blocker>, b: seq<Blocker>, c: seq<Blocker>)
    ensures SomeWorded(a + b + c) <==> SomeWorded(a) || SomeWorded(b) || SomeWorded(c)
  {
    WordedPair(a + b, c);
    WordedPair(a, b);
  }

  lemma {:induction false} WordedFive(a: seq<Blocker>, b: seq<Blocker>, c: seq<Blocker>, d: seq<Blocker>, e: seq<Blocker>)
    ensures SomeWorded(a + b + c + d + e) <==> SomeWorded(a) || SomeWorded(b) || SomeWorded(c) || SomeWorded(d) || SomeWorded(e)
  {
    WordedThree(a + b + c, d, e);
    WordedThree(a, b, c);
  }

  lemma {:induction false} WordedFlatten(xs: seq<seq<Blocker>>, n: nat)
    requires n <= |xs|
    ensures SomeWorded(Flatten(xs, n)) <==> exists k :: 0 <= k < n && SomeWorded(xs[k])
  {
    if n > 0 {
      WordedFlatten(xs, n - 1);
      WordedPair(Flatten(xs, n - 1), xs[n - 1]);
    }
  }

  // ----- sections that are never worded about privacy ---------------------------------------------

  lemma {:induction false} HeadersAreNotWorded(r: Registry, expected: seq<string>, actual: seq<Option<string>>)
    ensures !SomeWorded(HeaderErrors(r))
    ensures RegistryIdErrors(expected, actual).Success? ==> !SomeWorded(RegistryIdErrors(expected, actual).value)
  {
  }

  lemma {:induction false} RegistryItemsAreNotWorded(items: seq<Option<RegistryItem>>, default: Option<Phase>)
    ensures !SomeWorded(Flatten(RegistryErrorLists(items, default), |items|))
  {
    var lists := RegistryErrorLists(items, default);
    WordedFlatten(lists, |lists|);
    forall k | 0 <= k < |lists|
      ensures !SomeWorded(lists[k])
    {
      RegistryItemIsNotWorded(k, items[k], default);
    }
  }

  lemma {:induction false} RegistryIsNotWorded(registry: Option<Registry>, ids: seq<string>)
    requires RegistryErrors(registry, ids).Success?
    ensures !SomeWorded(RegistryErrors(registry, ids).value)
  {
    if registry.Some? && registry.value.items.Some? {
      var items, default := registry.value.items.value, registry.value.defaultPhase;
      HeadersAreNotWorded(registry.value, ids, RegistryIds(items));
      RegistryItemsAreNotWorded(items, default);
      WordedThree(HeaderErrors(registry.value), RegistryIdErrors(ids, RegistryIds(items)).value,
                  Flatten(RegistryErrorLists(items, default), |items|));
    } else if registry.Some? {
      HeadersAreNotWorded(registry.value, ids, []);
      WordedPair(HeaderErrors(registry.value), [RegistryItemsNotList]);
    }
  }

  lemma {:induction false} RegistryItemIsNotWorded(i: nat, entry: Option<RegistryItem>, default: Option<Phase>)
    ensures !SomeWorded(RegistryItemErrors(i, entry, default))
  {
  }

  lemma {:induction false} DecidedIsNotWorded(i: nat, item: RecordItem, f: ResultFields, registered: RegistryItem, phase: Option<Phase>,
                                              collected: bool, commit: Option<string>, tag: Option<string>)
    requires item.id.Some?
    ensures !SomeWorded(DecidedErrors(i, item, f, registered, phase, collected, commit, tag))
  {
    assert !SomeWorded(CollectedErrors(i, f, commit, tag));
  }

  lemma {:induction false} RecordItemIsNotWorded(i: nat, entry: Option<RecordItem>, items: seq<RegistryItem>, default: Option<Phase>,
                                                 collected: bool, commit: Option<string>, tag: Option<string>)
    ensures !SomeWorded(RecordItemErrors(i, entry, items, default, collected, commit, tag))
  {
    if entry.Some? && entry.value.id.Some? && FindItem(items, entry.value.id).Some? {
      var registered := FindItem(items, entry.value.id).value;
      if entry.value.result.Some? && Countable(entry.value.result.value.state) {
        var phase := PhaseOf(registered, default);
        DecidedIsNotWorded(i, entry.value, entry.value.result.value, registered, phase, collected, commit, tag);
        WordedPair(MismatchErrors(i, entry.value, registered, default),
                   DecidedErrors(i, entry.value, entry.value.result.value, registered, phase, collected, commit, tag));
      }
    }
  }

  lemma {:induction false} BodyIsNotWorded(record: Record, entries: seq<Option<RecordItem>>, registry: Registry, commit: Option<string>, tag: Option<string>)
    ensures !SomeWorded(BodyErrors(record, entries, registry, commit, tag))
  {
    var items := IndexedItems(registry);
    var lists := RecordErrorLists(entries, items, registry.defaultPhase, !record.collection.NoCollection?, commit, tag);
    WordedFlatten(lists, |entries|);
    forall k | 0 <= k < |entries|
      ensures !SomeWorded(lists[k])
    {
      RecordItemIsNotWorded(k, entries[k], items, registry.defaultPhase, !record.collection.NoCollection?, commit, tag);
    }
    var summary := if record.summary != Some(Summarize(TallyList(entries, items))) then [SummaryMismatch] else [];
    WordedPair(Flatten(lists, |entries|), summary);
  }

  lemma {:induction false} RecordIdsAreNotWorded(expected: seq<string>, actual: seq<Option<string>>)
    ensures RecordIdErrors(expected, actual).Success? ==> !SomeWorded(RecordIdErrors(expected, actual).value)
  {
  }

  lemma {:induction false} BindingIsNotWorded(c: Collection, commit: Option<string>, tag: Option<string>)
    ensures !SomeWorded(BindingErrors(c, commit, tag))
  {
  }

  lemma {:induction false} RecordHeadIsNotWorded(record: Record, contract: Contract, commit: Option<string>, tag: Option<string>,
                                                 expected: seq<string>, actual: seq<Option<string>>)
    ensures !SomeWorded(RecordHeaderErrors(record)) && !SomeWorded(HashErrors(record, contract))
    ensures !SomeWorded(BindingErrors(record.collection, commit, tag))
    ensures RecordIdErrors(expected, actual).Success? ==> !SomeWorded(RecordIdErrors(expected, actual).value)
  {
    BindingIsNotWorded(record.collection, commit, tag);
    RecordIdsAreNotWorded(expected, actual);
  }

  lemma {:induction false} WordedSeven(a: seq<Blocker>, b: seq<Blocker>, c: seq<Blocker>, d: seq<Blocker>, e: seq<Blocker>, f: seq<Blocker>, g: seq<Blocker>)
    requires !SomeWorded(a) && !SomeWorded(b) && !SomeWorded(c) && !SomeWorded(d) && !SomeWorded(e) && !SomeWorded(f) && !SomeWorded(g)
    ensures !SomeWorded(a + b + c + d + e + f + g) && !SomeWorded(a + b + c + d + e)
  {
    WordedFive(a, b, c, d, e);
    WordedThree(a + b + c + d + e, f, g);
  }

  /** No checklist error is worded about privacy. */
  lemma {:induction false} ChecklistIsNotWorded(checklist: Option<Record>, contract: Contract, commit: Option<string>, tag: Option<string>)
    requires ChecklistErrors(checklist, contract, commit, tag).Success?
    ensures !SomeWorded(ChecklistErrors(checklist, contract, commit, tag).value)
  {
    if checklist.Some? && Parsed(contract.lines).Some? {
      var record, ids := checklist.value, Ids(Parsed(contract.lines).value);
      RegistryIsNotWorded(contract.registry, ids);
      var a, b := RecordHeaderErrors(record), RegistryErrors(contract.registry, ids).value;
      var c, d := HashErrors(record, contract), BindingErrors(record.collection, commit, tag);
      if record.items.Some? {
        var entries := record.items.value;
        RecordHeadIsNotWorded(record, contract, commit, tag, ids, RecordIds(entries));
        var e := if record.itemCount != Some(|entries|) then [ItemCount] else [];
        BodyIsNotWorded(record, entries, contract.registry.value, commit, tag);
        WordedSeven(a, b, c, d, e, RecordIdErrors(ids, RecordIds(entries)).value,
                    BodyErrors(record, entries, contract.registry.value, commit, tag));
      } else {
        RecordHeadIsNotWorded(record, contract, commit, tag, ids, []);
        WordedSeven(a, b, c, d, [ItemsNotList], [], []);
      }
    } else if checklist.Some? {
      RecordHeadIsNotWorded(checklist.value, contract, commit, tag, [], []);
      WordedPair(RecordHeaderErrors(checklist.value), [ContractUnreadable]);
    }
  }

  // ----- sections that speak about evidence -------------------------------------------------------

  lemma {:induction false} ArtifactWordedIff(i: nat, a: Artifact)
    ensures SomeWorded(ArtifactErrors(i, a)) <==> UnsafeArtifact(a)
  {
    var errors := ArtifactErrors(i, a);
    var missing := MissingKeys(i, a.keys, 6);
    assert forall b :: b in missing ==> b in errors;
    if PrivacyKey !in a.keys {
      assert ARTIFACT_KEYS[3] == PrivacyKey && ArtifactMissing(i, ARTIFACT_KEYS[3]) in missing;
    }
    if RedactionKey !in a.keys {
      assert ARTIFACT_KEYS[4] == RedactionKey && ArtifactMissing(i, ARTIFACT_KEYS[4]) in missing;
    }
    if SanitizedKey !in a.keys {
      assert ARTIFACT_KEYS[5] == SanitizedKey && ArtifactMissing(i, ARTIFACT_KEYS[5]) in missing;
    }
    assert !Shareable(a.privacy) ==> ArtifactPrivacy(i) in errors;
    assert !Shareable(a.redaction) ==> ArtifactRedaction(i) in errors;
    assert a.sanitized != Some(true) ==> ArtifactNotSanitized(i) in errors;
  }

  lemma {:induction false} ArtifactsWordedIff(artifacts: seq<Artifact>)
    ensures SomeWorded(ArtifactsErrors(Some(artifacts))) <==> exists k :: 0 <= k < |artifacts| && UnsafeArtifact(artifacts[k])
  {
    if artifacts != [] {
      var lists := ArtifactErrorLists(artifacts);
      WordedFlatten(lists, |artifacts|);
      forall k | 0 <= k < |artifacts|
        ensures SomeWorded(lists[k]) <==> UnsafeArtifact(artifacts[k])
      {
        ArtifactWordedIff(k, artifacts[k]);
      }
    }
  }

  lemma {:induction false} EntryIsNotWorded(i: nat, entry: Option<ReportEntry>)
    requires EntryShareable(entry)
    ensures !SomeWorded(EntryErrors(i, entry))
  {
  }

  lemma {:induction false} ResultsAreNotWorded(report: Report)
    requires ReportShareable(report)
    ensures !SomeWorded(ResultsErrors(report.results))
  {
    if report.results.Some? && report.results.value != [] {
      var lists := EntryErrorLists(report.results.value);
      WordedFlatten(lists, |lists|);
      forall k | 0 <= k < |lists|
        ensures !SomeWorded(lists[k])
      {
        EntryIsNotWorded(k, report.results.value[k]);
      }
    }
  }

  /** The status section of a draft is worded exactly when a derived status is unsafe. */
  lemma {:induction false} StatusWordedIff(m: ManifestDoc)
    ensures SomeWorded(StatusErrors(m)) <==> !Shareable(m.privacy) || !Shareable(m.redaction)
  {
    assert !SomeWorded(RunErrors(m.run));
    assert !Shareable(m.privacy) ==> PrivacyNotShareable in StatusErrors(m);
    assert !Shareable(m.redaction) ==> RedactionNotShareable in StatusErrors(m);
  }

  lemma {:induction false} DerivedStatuses(input: BuildInput)
    ensures !ReportShareable(input.report) ==> !Shareable(Some(DerivePrivacy(input.report, input.artifacts)))
    ensures !UnsafeEvidence(input) ==>
      Shareable(Some(DerivePrivacy(input.report, input.artifacts))) && Shareable(Some(DeriveRedaction(input.artifacts)))
    ensures !Shareable(Some(DerivePrivacy(input.report, input.artifacts))) || !Shareable(Some(DeriveRedaction(input.artifacts))) ==>
      UnsafeEvidence(input)
  {
  }

  lemma {:induction false} AgesAreNotWorded(faults: seq<AgeFault>)
    ensures !SomeWorded(ManifestAgeErrors(faults)) && !SomeWorded(ReportAgeErrors(faults))
  {
  }

  lemma {:induction false} AboutClaimsIsNotWorded(errors: seq<Blocker>)
    requires forall b :: b in errors ==> AboutClaims(b)
    ensures !SomeWorded(errors)
  {
  }

  lemma {:induction false} ClaimsAreNotWorded(m: ManifestDoc)
    ensures !SomeWorded(ClaimSection(m))
  {
    ClaimErrorsAreAboutClaims(m.claims);
    AssuranceErrorsAreAboutClaims(m.assurance, m.commit, m.claims);
    AboutClaimsIsNotWorded(ClaimErrors(m.claims));
    AboutClaimsIsNotWorded(AssuranceErrors(m.assurance, m.commit, m.claims));
    WordedPair(ClaimErrors(m.claims), AssuranceErrors(m.assurance, m.commit, m.claims));
  }

  lemma {:induction false} ContentWordedIff(m: ManifestDoc, report: Report, artifacts: seq<Artifact>)
    requires m.report == Some(report) && m.artifacts == Some(artifacts)
    ensures SomeWorded(ContentErrors(m)) <==>
      SomeWorded(ResultsErrors(report.results)) || SomeWorded(ArtifactsErrors(Some(artifacts)))
  {
    ClaimsAreNotWorded(m);
    WordedPair(ResultsErrors(report.results) + ArtifactsErrors(m.artifacts), ClaimSection(m));
    WordedPair(ResultsErrors(report.results), ArtifactsErrors(m.artifacts));
  }

  /** A draft's errors are worded about privacy exactly when the evidence is unsafe. */
  lemma {:induction false} DraftWordedIff(input: BuildInput, generatedAt: Timestamp, record: Record, clock: Clock, maxAge: int, contract: Contract)
    requires ManifestErrors(Draft(input, generatedAt, record), clock, maxAge, contract).Success?
    ensures SomeWorded(ManifestErrors(Draft(input, generatedAt, record), clock, maxAge, contract).value) <==> UnsafeEvidence(input)
  {
    var m := Draft(input, generatedAt, record);
    var checklist := ChecklistErrors(m.checklist, contract, m.commit, m.tag).value;
    ChecklistIsNotWorded(m.checklist, contract, m.commit, m.tag);
    AgesAreNotWorded(AgeFaults(m.generatedAt, clock.manifest, maxAge));
    AgesAreNotWorded(ReportAgeFaults(m.report, clock.report, maxAge));
    StatusWordedIff(m);
    DerivedStatuses(input);
    ArtifactsWordedIff(input.artifacts);
    ContentWordedIff(m, input.report, input.artifacts);
    if ReportShareable(input.report) {
      ResultsAreNotWorded(input.report);
    }
    EdgesAreNotWorded(m);
    WordedThree(ContentErrors(m), checklist, DecisionErrors(m.decision));
    WordedFive(IdentityErrors(m), ManifestAgeErrors(AgeFaults(m.generatedAt, clock.manifest, maxAge)), StatusErrors(m),
               ReportAgeErrors(ReportAgeFaults(m.report, clock.report, maxAge)), ContentErrors(m) + checklist + DecisionErrors(m.decision));
  }

  lemma {:induction false} EdgesAreNotWorded(m: ManifestDoc)
    ensures !SomeWorded(IdentityErrors(m)) && !SomeWorded(DecisionErrors(m.decision))
  {
  }
}
