/**
  When a build decides `blocked_for_privacy`, in terms of what it is given: unsafe evidence, or a
  document text with one of the words that some error message quotes.
 */
module ManifestQuotes {
  import opened Basics
  import opened ChecklistParser
  import opened ChecklistRegistry
  import opened ChecklistPipeline
  import opened ChecklistRecord
  import opened BuilderTheorems
  import opened ReleaseClaims
  import opened Manifest
  import opened ManifestAcceptance
  import opened ManifestPrivacy

  // ----- what can be quoted -----------------------------------------------------------------------

  /** An instant that cannot be read is quoted; so is the moment of the check, if it was given and
      cannot be read. */
  predicate TimeQuotes(recorded: Option<Timestamp>, reading: Timestamp) {
    && recorded.Some?
    && (if recorded.value.Unparsable? then Mentions(recorded.value.text) else reading.Unparsable? && Mentions(reading.text))
  }

  /** A benchmark result that is held against the release is named by its case id. */
  ghost predicate CaseQuotes(entry: Option<ReportEntry>) {
    && entry.Some? && entry.value.result.Some? && !GoodResult(entry)
    && entry.value.result.value.caseId.Some? && Mentions(entry.value.result.value.caseId.value)
  }

  /** The observation time of a collected result, when it cannot be read. */
  predicate ObservationQuotes(f: ResultFields) {
    f.observedAt.Some? && f.observedAt.value.Unparsable? && Mentions(f.observedAt.value.text)
  }

  /** The reason why a subject is unavailable. */
  predicate ReasonQuotes(item: RegistryItem) {
    && item.subject.Some? && item.subject.value.available == Some(false)
    && item.subject.value.unavailableReason.Some? && Mentions(item.subject.value.unavailableReason.value)
  }

  ghost predicate ReportQuotes(report: Report) {
    report.results.Some? && exists k :: 0 <= k < |report.results.value| && CaseQuotes(report.results.value[k])
  }

  /** The unsupported mode of the assurance. */
  ghost predicate ModeQuotes(assurance: Option<OperabilityAssurance>) {
    assurance.Some? && assurance.value.mode.Some? && assurance.value.mode.value.OtherMode? && Mentions(assurance.value.mode.value.text)
  }

  /** The unsupported state of a claim, or the unsupported mode of the assurance. */
  ghost predicate ClaimQuotes(claims: seq<Claim>, assurance: Option<OperabilityAssurance>) {
    ModeQuotes(assurance) || exists k :: 0 <= k < |claims| && StateQuotes(claims[k])
  }

  ghost predicate ResultsQuote(results: Option<Results>) {
    && results.Some? && results.value.collector.Some? && results.value.items.Some?
    && exists k :: 0 <= k < |results.value.items.value| && results.value.items.value[k].Some?
         && ObservationQuotes(results.value.items.value[k].value.fields)
  }

  ghost predicate RegistryQuotes(registry: Option<Registry>) {
    && registry.Some? && registry.value.items.Some?
    && exists k :: 0 <= k < |registry.value.items.value| && registry.value.items.value[k].Some?
         && ReasonQuotes(registry.value.items.value[k].value)
  }

  /** Some text that the build is given has one of the words and is quoted. */
  ghost predicate InputQuotes(input: BuildInput, generatedAt: Timestamp, clock: Clock, contract: Contract) {
    || ClaimQuotes(input.claims, input.assurance)
    || TimeQuotes(Some(generatedAt), clock.manifest)
    || TimeQuotes(input.report.generatedAt, clock.report)
    || ReportQuotes(input.report)
    || ResultsQuote(input.results)
    || RegistryQuotes(contract.registry)
  }

  // ----- fixed texts do not have the words --------------------------------------------------------

  /** Each of the words has at least seven letters, an i and an a among them. */
  lemma {:induction false} WordsHaveLetters(s: string, word: string)
    requires Contains(s, word) && |word| >= 7 && 'i' in word && 'a' in word
    ensures |s| >= 7 && 'i' in s && 'a' in s
  {
    var i: nat :| i <= |s| && OccursAt(s, word, i);
    var a :| 0 <= a < |word| && word[a] == 'a';
    var b :| 0 <= b < |word| && word[b] == 'i';
    assert s[i + a] == s[i..i + |word|][a] && s[i + b] == s[i..i + |word|][b];
  }

  lemma {:induction false} MentionsHasLetters(s: string)
    requires Mentions(s)
    ensures |s| >= 7 && 'i' in s && 'a' in s
  {
    assert "privacy"[2] == 'i' && "privacy"[4] == 'a';
    assert "redaction"[6] == 'i' && "redaction"[3] == 'a';
    assert "sanitized"[3] == 'i' && "sanitized"[1] == 'a';
    if Contains(s, "privacy") {
      WordsHaveLetters(s, "privacy");
    } else if Contains(s, "redaction") {
      WordsHaveLetters(s, "redaction");
    } else {
      WordsHaveLetters(s, "sanitized");
    }
  }

  lemma {:induction false} FixedTextsDoNotMention(s: string)
    requires |s| < 7 || 'i' !in s || 'a' !in s
    ensures !Mentions(s)
  {
    if Mentions(s) {
      MentionsHasLetters(s);
    }
  }

  /** The parser admits only capital letters, digits and hyphens in ids. */
  lemma {:induction false} StableIdDoesNotMention(id: string)
    requires IsStableId(id)
    ensures !Mentions(id)
  {
    FixedTextsDoNotMention(id);
  }

  lemma {:induction false} PairIsStable(kinds: seq<Option<Kind>>, k: nat)
    requires Alternates(Events(kinds, |kinds|)) && k < |Pairs(Events(kinds, |kinds|))|
    requires forall i :: 0 <= i < |kinds| && kinds[i].Some? && kinds[i].value.Marker? ==> IsStableId(kinds[i].value.id)
    ensures IsStableId(Pairs(Events(kinds, |kinds|))[k].id)
  {
    PairsQuoteTheFile(kinds, k);
  }

  lemma {:induction false} ParsedIdIsStable(lines: seq<string>, k: nat)
    requires Parsed(lines).Some? && k < |Parsed(lines).value|
    ensures IsStableId(Ids(Parsed(lines).value)[k])
  {
    var kinds := Kinds(lines);
    forall i | 0 <= i < |kinds| && kinds[i].Some? && kinds[i].value.Marker?
      ensures IsStableId(kinds[i].value.id)
    {
      MarkerIsStable(lines[i], kinds[i].value.id);
    }
    PairIsStable(kinds, k);
  }

  lemma {:induction false} MarkerIsStable(line: string, id: string)
    requires Classify(line) == Some(Marker(id))
    ensures IsStableId(id)
  {
  }

  lemma {:induction false} OutcomeDoesNotMention(outcome: Outcome)
    requires !outcome.OtherOutcome?
    ensures !Mentions(OutcomeText(outcome))
  {
    FixedTextsDoNotMention(OutcomeText(outcome));
  }

  lemma {:induction false} BlockedDoesNotMention()
    ensures !Mentions("blocked") && !Mentions("result")
  {
    FixedTextsDoNotMention("blocked");
    FixedTextsDoNotMention("result");
  }

  // ----- quotes in joined lists -------------------------------------------------------------------

  lemma {:induction false} QuotePair(a: seq<Blocker>, b: seq<Blocker>)
    ensures SomeQuote(a + b) <==> SomeQuote(a) || SomeQuote(b)
  {
    assert forall x :: x in a + b <==> x in a || x in b;
  }

  lemma {:induction false} QuoteThree(a: seq<Blocker>, b: seq<Blocker>, c: seq<Blocker>)
    ensures SomeQuote(a + b + c) <==> SomeQuote(a) || SomeQuote(b) || SomeQuote(c)
  {
    QuotePair(a + b, c);
    QuotePair(a, b);
  }

  lemma {:induction false} QuoteFive(a: seq<Blocker>, b: seq<Blocker>, c: seq<Blocker>, d: seq<Blocker>, e: seq<Blocker>)
    ensures SomeQuote(a + b + c + d + e) <==> SomeQuote(a) || SomeQuote(b) || SomeQuote(c) || SomeQuote(d) || SomeQuote(e)
  {
    QuoteThree(a + b + c, d, e);
    QuoteThree(a, b, c);
  }

  lemma {:induction false} QuoteFlatten(xs: seq<seq<Blocker>>, n: nat)
    requires n <= |xs|
    ensures SomeQuote(Flatten(xs, n)) <==> exists k :: 0 <= k < n && SomeQuote(xs[k])
  {
    if n > 0 {
      QuoteFlatten(xs, n - 1);
      QuotePair(Flatten(xs, n - 1), xs[n - 1]);
    }
  }

  lemma {:induction false} QuoteOne(b: Blocker)
    ensures SomeQuote([b]) <==> QuotesWord(b)
  {
    assert b in [b];
  }

  // ----- section by section -----------------------------------------------------------------------

  lemma {:induction false} ManifestAgeQuotesIff(recorded: Option<Timestamp>, reading: Timestamp, maxAge: int)
    ensures SomeQuote(ManifestAgeErrors(AgeFaults(recorded, reading, maxAge))) <==> TimeQuotes(recorded, reading)
  {
    var faults := AgeFaults(recorded, reading, maxAge);
    var errors := ManifestAgeErrors(faults);
    if TimeQuotes(recorded, reading) {
      assert errors[0] in errors && QuotesWord(errors[0]);
    }
  }

  lemma {:induction false} ReportAgeQuotesIff(recorded: Option<Timestamp>, reading: Timestamp, maxAge: int)
    ensures SomeQuote(ReportAgeErrors(AgeFaults(recorded, reading, maxAge))) <==> TimeQuotes(recorded, reading)
  {
    var faults := AgeFaults(recorded, reading, maxAge);
    var errors := ReportAgeErrors(faults);
    if TimeQuotes(recorded, reading) {
      assert errors[0] in errors && QuotesWord(errors[0]);
    }
  }

  lemma {:induction false} FixedDoNotQuote(errors: seq<Blocker>)
    requires AllFixed(errors)
    ensures !SomeQuote(errors)
  {
  }

  ghost predicate StateQuotes(c: Claim) {
    c.state.Some? && c.state.value.OtherDecision? && Mentions(c.state.value.text)
  }

  lemma {:induction false} StatesQuoteIff(errors: seq<Blocker>, claims: seq<Claim>)
    requires forall b :: !Fixed(b) ==> (b in errors <==>
      exists k: nat :: k < |claims| && !KnownDecision(claims[k].state) && b == ClaimState(k, DecisionText(claims[k].state)))
    ensures SomeQuote(errors) <==> exists k :: 0 <= k < |claims| && StateQuotes(claims[k])
  {
    FixedTextsDoNotMention("None");
    if b :| b in errors && QuotesWord(b) {
      assert !Fixed(b);
      var k: nat :| k < |claims| && !KnownDecision(claims[k].state) && b == ClaimState(k, DecisionText(claims[k].state));
      assert StateQuotes(claims[k]);
    }
    if k: nat :| k < |claims| && StateQuotes(claims[k]) {
      var b := ClaimState(k, DecisionText(claims[k].state));
      assert !Fixed(b) && b in errors && QuotesWord(b);
    }
  }

  lemma {:induction false} ClaimStatesQuoteIff(claims: seq<Claim>, errors: seq<Blocker>)
    requires errors == ClaimErrors(Some(claims))
    ensures SomeQuote(errors) <==> exists k :: 0 <= k < |claims| && StateQuotes(claims[k])
  {
    forall b | !Fixed(b)
      ensures b in errors <==>
        exists k: nat :: k < |claims| && !KnownDecision(claims[k].state) && b == ClaimState(k, DecisionText(claims[k].state))
    {
      ClaimsQuoteIff(claims, b);
    }
    StatesQuoteIff(errors, claims);
  }

  lemma {:induction false} AssuranceQuotesIff(assurance: Option<OperabilityAssurance>, commit: Option<string>, claims: Option<seq<Claim>>, errors: seq<Blocker>)
    requires errors == AssuranceErrors(assurance, commit, claims)
    ensures SomeQuote(errors) <==> ModeQuotes(assurance)
  {
    AssuranceQuotesItsMode(assurance, commit, claims);
    if assurance.Some? && (assurance.value.mode.None? || assurance.value.mode.value.OtherMode?) {
      ModeQuoteIff(errors, if assurance.value.mode.Some? then assurance.value.mode.value.text else "None");
      FixedTextsDoNotMention("None");
    } else {
      FixedDoNotQuote(errors);
    }
  }

  lemma {:induction false} ModeQuoteIff(errors: seq<Blocker>, text: string)
    requires errors == [AssuranceMode(text)]
    ensures SomeQuote(errors) <==> Mentions(text)
  {
    QuoteOne(AssuranceMode(text));
  }

  lemma {:induction false} ClaimQuotesIff(m: ManifestDoc, claims: seq<Claim>)
    requires m.claims == Some(claims)
    ensures SomeQuote(ClaimSection(m)) <==> ClaimQuotes(claims, m.assurance)
  {
    ClaimStatesQuoteIff(claims, ClaimErrors(m.claims));
    AssuranceQuotesIff(m.assurance, m.commit, m.claims, AssuranceErrors(m.assurance, m.commit, m.claims));
    QuotePair(ClaimErrors(m.claims), AssuranceErrors(m.assurance, m.commit, m.claims));
  }

  lemma {:induction false} PassErrorsName(id: string, r: CaseResult, current: bool)
    ensures forall b :: b in PassErrors(id, r, current) ==> b.ResultPassFault? && b.caseId == id
  {
  }

  lemma {:induction false} SameCaseQuotesIff(errors: seq<Blocker>, id: string)
    requires forall b :: b in errors ==> b.ResultPassFault? && b.caseId == id
    ensures SomeQuote(errors) <==> Mentions(id) && errors != []
  {
    if errors != [] {
      assert errors[0] in errors;
    }
  }

  lemma {:induction false} PassQuotesIff(id: string, r: CaseResult, current: bool)
    ensures SomeQuote(PassErrors(id, r, current)) <==> Mentions(id) && PassErrors(id, r, current) != []
  {
    PassErrorsName(id, r, current);
    SameCaseQuotesIff(PassErrors(id, r, current), id);
  }

  /** With a shareable status, an entry is quoted exactly by the case id of a faulty result. */
  lemma {:induction false} EntryQuotesIff(i: nat, entry: Option<ReportEntry>)
    requires EntryShareable(entry)
    ensures SomeQuote(EntryErrors(i, entry)) <==> CaseQuotes(entry)
  {
    if entry.Some? && entry.value.result.Some? {
      var r := entry.value.result.value;
      var id := CaseText(r);
      BlockedDoesNotMention();
      if r.outcome == Some(Passed) {
        PassIff(id, r, entry.value.evidenceFresh);
        PassQuotesIff(id, r, entry.value.evidenceFresh);
        assert EntryErrors(i, entry) == [] + PassErrors(id, r, entry.value.evidenceFresh);
        assert [] + PassErrors(id, r, entry.value.evidenceFresh) == PassErrors(id, r, entry.value.evidenceFresh);
      } else if r.outcome.Some? && !r.outcome.value.OtherOutcome? {
        OutcomeDoesNotMention(r.outcome.value);
        QuoteOne(ResultOutcome(id, OutcomeText(r.outcome.value)));
        assert EntryErrors(i, entry) == [ResultOutcome(id, OutcomeText(r.outcome.value))];
      }
    }
  }

  lemma {:induction false} ReportQuotesIff(report: Report)
    requires ReportShareable(report)
    ensures SomeQuote(ResultsErrors(report.results)) <==> ReportQuotes(report)
  {
    if report.results.Some? && report.results.value != [] {
      var entries := report.results.value;
      QuoteFlatten(EntryErrorLists(entries), |entries|);
      forall k | 0 <= k < |entries|
        ensures SomeQuote(EntryErrorLists(entries)[k]) <==> CaseQuotes(entries[k])
      {
        EntryQuotesIff(k, entries[k]);
      }
    } else {
      QuoteOne(ReportEmpty);
    }
  }

  lemma {:induction false} ArtifactsDoNotQuote(artifacts: seq<Artifact>)
    ensures !SomeQuote(ArtifactsErrors(Some(artifacts)))
  {
    if artifacts != [] {
      QuoteFlatten(ArtifactErrorLists(artifacts), |artifacts|);
      forall k | 0 <= k < |artifacts|
        ensures !SomeQuote(ArtifactErrorLists(artifacts)[k])
      {
        ArtifactDoesNotQuote(k, artifacts[k]);
      }
    }
  }

  lemma {:induction false} MissingKeysDoNotQuote(i: nat, keys: set<ArtifactKey>)
    ensures !SomeQuote(MissingKeys(i, keys, 6))
  {
    assert forall b :: b in MissingKeys(i, keys, 6) ==> b.ArtifactMissing?;
  }

  /** A message without quotes, if it is there. */
  function Perhaps(there: bool, b: Blocker): seq<Blocker> {
    if there then [b] else []
  }

  lemma {:induction false} PerhapsIsQuiet(there: bool, b: Blocker)
    requires !QuotesWord(b)
    ensures !SomeQuote(Perhaps(there, b))
  {
  }

  lemma {:induction false} ArtifactDoesNotQuote(i: nat, a: Artifact)
    ensures !SomeQuote(ArtifactErrors(i, a))
  {
    var sha := a.sha.Some? && !IsLowerHex(a.sha.value, 64);
    MissingKeysDoNotQuote(i, a.keys);
    PerhapsIsQuiet(sha, ArtifactSha(i));
    PerhapsIsQuiet(!Shareable(a.privacy), ArtifactPrivacy(i));
    PerhapsIsQuiet(!Shareable(a.redaction), ArtifactRedaction(i));
    PerhapsIsQuiet(a.sanitized != Some(true), ArtifactNotSanitized(i));
    QuoteFive(MissingKeys(i, a.keys, 6), Perhaps(sha, ArtifactSha(i)), Perhaps(!Shareable(a.privacy), ArtifactPrivacy(i)),
              Perhaps(!Shareable(a.redaction), ArtifactRedaction(i)), Perhaps(a.sanitized != Some(true), ArtifactNotSanitized(i)));
  }

  lemma {:induction false} IdentityDoesNotQuote(m: ManifestDoc)
    ensures !SomeQuote(IdentityErrors(m))
  {
    assert forall b :: b in IdentityErrors(m) ==> b.ManifestField?;
  }

  lemma {:induction false} RunDoesNotQuote(run: Option<RunInfo>)
    ensures !SomeQuote(RunErrors(run))
  {
    assert forall b :: b in RunErrors(run) ==> b.ManifestField?;
  }

  lemma {:induction false} StatusDoesNotQuote(m: ManifestDoc)
    ensures !SomeQuote(StatusErrors(m))
  {
    RunDoesNotQuote(m.run);
    var a, b := Perhaps(!Shareable(m.privacy), PrivacyNotShareable), Perhaps(!Shareable(m.redaction), RedactionNotShareable);
    var c := Perhaps(m.cleanupStatus != Some("pass"), ManifestField("cleanup"));
    var d := Perhaps(m.issues.None? || m.issues.value == [], ManifestField("covered_issue_numbers"));
    var e := if m.report.None? then [ReportMissing] else Perhaps(m.report.value.schema != Some(REPORT_SCHEMA), ReportSchema);
    assert !SomeQuote(a) && !SomeQuote(b) && !SomeQuote(c) && !SomeQuote(d) && !SomeQuote(e);
    QuoteFive(RunErrors(m.run), a, b, c, d);
    QuotePair(RunErrors(m.run) + a + b + c + d, e);
  }

  /** What the check of a built record can quote: an unreadable observation time, a reason. */
  lemma {:induction false} BuiltItemQuotesIff(i: nat, f: ResultFields, registered: RegistryItem, default: Option<Phase>, collected: bool, commit: Option<string>, tag: Option<string>)
    requires registered.id.Some? && IsStableId(registered.id.value) && SoundItem(registered, default)
    ensures SomeQuote(BuiltItemErrors(i, f, registered, collected, commit, tag)) <==>
      (collected && ObservationQuotes(f)) || ReasonQuotes(registered)
  {
    var id := registered.id.value;
    StableIdDoesNotMention(id);
    BlockedDoesNotMention();
    CollectedQuotesIff(i, f, commit, tag);
    ReasonQuotesIff(id, registered, default);
    QuoteOne(ResultBlocks(id, "blocked"));
    var x := if collected then CollectedErrors(i, f, commit, tag) else [];
    var b := if f.state == Some(Blocked) then [ResultBlocks(id, "blocked")] else [];
    QuoteThree(x, UnavailableError(id, registered), b);
  }

  lemma {:induction false} CollectedQuotesIff(i: nat, f: ResultFields, commit: Option<string>, tag: Option<string>)
    ensures SomeQuote(CollectedErrors(i, f, commit, tag)) <==> ObservationQuotes(f)
  {
    var errors := CollectedErrors(i, f, commit, tag);
    if ObservationQuotes(f) {
      assert errors[|errors| - 1] == ItemObservedBad(i, f.observedAt.value.text);
      assert errors[|errors| - 1] in errors;
    }
  }

  lemma {:induction false} ReasonQuotesIff(id: string, registered: RegistryItem, default: Option<Phase>)
    requires !Mentions(id) && SoundItem(registered, default)
    ensures SomeQuote(UnavailableError(id, registered)) <==> ReasonQuotes(registered)
  {
    if registered.subject.value.available == Some(false) {
      QuoteOne(SubjectUnavailable(id, registered.subject.value.unavailableReason.value));
    }
  }

  lemma {:induction false} BuiltListQuotesIff(entries: seq<ResultItem>, items: seq<RegistryItem>, default: Option<Phase>, ids: seq<string>,
                           collected: bool, commit: Option<string>, tag: Option<string>)
    requires Covers(items, default, ids) && |entries| == |items| && forall k :: 0 <= k < |ids| ==> IsStableId(ids[k])
    ensures SomeQuote(Flatten(BuiltErrorLists(entries, items, collected, commit, tag), |entries|)) <==>
      || (collected && exists k :: 0 <= k < |entries| && ObservationQuotes(entries[k].fields))
      || (exists k :: 0 <= k < |items| && ReasonQuotes(items[k]))
  {
    var lists := BuiltErrorLists(entries, items, collected, commit, tag);
    QuoteFlatten(lists, |entries|);
    forall k | 0 <= k < |items|
      ensures SomeQuote(lists[k]) <==> (collected && ObservationQuotes(entries[k].fields)) || ReasonQuotes(items[k])
    {
      BuiltItemQuotesIff(k, entries[k].fields, items[k], default, collected, commit, tag);
    }
  }

  lemma {:induction false} RegistryQuotesIff(contract: Contract, ids: seq<string>)
    requires LoadedContract(contract, ids)
    ensures RegistryQuotes(contract.registry) <==> exists k :: 0 <= k < |RegisteredItems(contract)| && ReasonQuotes(RegisteredItems(contract)[k])
  {
    RegistryAcceptedIff(contract.registry, ids);
    var given, items := contract.registry.value.items.value, RegisteredItems(contract);
    assert forall k :: 0 <= k < |given| ==> given[k].Some? && items[k] == given[k].value;
  }

  lemma {:induction false} ResultsQuoteIff(results: Option<Results>, entries: seq<ResultItem>)
    requires results.Some? && results.value.items == Some(Entries(entries))
    ensures ResultsQuote(results) <==> results.value.collector.Some? && exists k :: 0 <= k < |entries| && ObservationQuotes(entries[k].fields)
  {
    var given := results.value.items.value;
    assert forall k :: 0 <= k < |given| ==> given[k] == Some(entries[k]);
  }

  lemma {:induction false} RecordQuotesIff(results: Option<Results>, commit: Option<string>, tag: Option<string>, contract: Contract)
    requires BuildRecord(results, commit, tag, contract).Success?
    ensures ChecklistErrors(Some(BuildRecord(results, commit, tag, contract).value), contract, commit, tag).Success?
    ensures SomeQuote(ChecklistErrors(Some(BuildRecord(results, commit, tag, contract).value), contract, commit, tag).value) <==>
      ResultsQuote(results) || RegistryQuotes(contract.registry)
  {
    var ids, entries, combined := BuiltRecordErrors(results, commit, tag, contract);
    forall k | 0 <= k < |ids|
      ensures IsStableId(ids[k])
    {
      ParsedIdIsStable(contract.lines, k);
    }
    BuiltListQuotesIff(entries, RegisteredItems(contract), contract.registry.value.defaultPhase, ids,
                       results.value.collector.Some?, commit, tag);
    RegistryQuotesIff(contract, ids);
    ResultsQuoteIff(results, entries);
  }

  /** With shareable results, the errors of a draft quote a word exactly when the input does. */
  lemma {:induction false} DraftQuotesIff(input: BuildInput, generatedAt: Timestamp, clock: Clock, contract: Contract)
    requires BuildRecord(input.results, Some(input.commit), Some(input.tag), contract).Success? && ReportShareable(input.report)
    ensures
      var record := BuildRecord(input.results, Some(input.commit), Some(input.tag), contract).value;
      var errors := ManifestErrors(Draft(input, generatedAt, record), clock, DEFAULT_MAX_AGE, contract);
      errors.Success? && (SomeQuote(errors.value) <==> InputQuotes(input, generatedAt, clock, contract))
  {
    var record := BuildRecord(input.results, Some(input.commit), Some(input.tag), contract).value;
    var m := Draft(input, generatedAt, record);
    RecordQuotesIff(input.results, Some(input.commit), Some(input.tag), contract);
    var checklist := ChecklistErrors(m.checklist, contract, m.commit, m.tag).value;
    IdentityDoesNotQuote(m);
    StatusDoesNotQuote(m);
    ManifestAgeQuotesIff(m.generatedAt, clock.manifest, DEFAULT_MAX_AGE);
    ReportAgeQuotesIff(input.report.generatedAt, clock.report, DEFAULT_MAX_AGE);
    ReportQuotesIff(input.report);
    ArtifactsDoNotQuote(input.artifacts);
    ClaimQuotesIff(m, input.claims);
    JoinedQuotesIff(m, clock, checklist);
  }

  lemma {:induction false} JoinedQuotesIff(m: ManifestDoc, clock: Clock, checklist: seq<Blocker>)
    requires m.report.Some? && m.decision == Some(Decision(Some(PassDecision), []))
    requires !SomeQuote(IdentityErrors(m)) && !SomeQuote(StatusErrors(m)) && !SomeQuote(ArtifactsErrors(m.artifacts))
    ensures
      var errors := IdentityErrors(m) + ManifestAgeErrors(AgeFaults(m.generatedAt, clock.manifest, DEFAULT_MAX_AGE)) + StatusErrors(m)
        + ReportAgeErrors(ReportAgeFaults(m.report, clock.report, DEFAULT_MAX_AGE)) + (ContentErrors(m) + checklist + DecisionErrors(m.decision));
      SomeQuote(errors) <==>
        || SomeQuote(ManifestAgeErrors(AgeFaults(m.generatedAt, clock.manifest, DEFAULT_MAX_AGE)))
        || SomeQuote(ReportAgeErrors(ReportAgeFaults(m.report, clock.report, DEFAULT_MAX_AGE)))
        || SomeQuote(ResultsErrors(m.report.value.results)) || SomeQuote(ClaimSection(m)) || SomeQuote(checklist)
  {
    QuoteFive(IdentityErrors(m), ManifestAgeErrors(AgeFaults(m.generatedAt, clock.manifest, DEFAULT_MAX_AGE)), StatusErrors(m),
              ReportAgeErrors(ReportAgeFaults(m.report, clock.report, DEFAULT_MAX_AGE)),
              ContentErrors(m) + checklist + DecisionErrors(m.decision));
    QuoteThree(ContentErrors(m), checklist, DecisionErrors(m.decision));
    QuoteThree(ResultsErrors(m.report.value.results), ArtifactsErrors(m.artifacts), ClaimSection(m));
  }

  /** The decision is about privacy if and only if some evidence is unsafe to share, or some text that
      the build is given has one of the words and is quoted by an error. */
  lemma {:induction false} PrivacyDecisionIff(input: BuildInput, generatedAt: Timestamp, clock: Clock, contract: Contract)
    requires Build(input, generatedAt, clock, contract).Success?
    ensures
      var m := Build(input, generatedAt, clock, contract).value;
      && m.decision.Some?
      && (m.decision.value.state == Some(BlockedForPrivacy) <==> UnsafeEvidence(input) || InputQuotes(input, generatedAt, clock, contract))
  {
    var record := BuildRecord(input.results, Some(input.commit), Some(input.tag), contract).value;
    DraftWordedIff(input, generatedAt, record, clock, DEFAULT_MAX_AGE, contract);
    DecisionIff(ManifestErrors(Draft(input, generatedAt, record), clock, DEFAULT_MAX_AGE, contract).value);
    if ReportShareable(input.report) {
      DraftQuotesIff(input, generatedAt, clock, contract);
    }
  }
}
