/** What building and validating a manifest promise each other, over time and about privacy. */
module ManifestTheorems {
  import opened Basics
  import opened ChecklistRegistry
  import opened ChecklistPipeline
  import opened ChecklistRecord
  import opened BuilderTheorems
  import opened ReleaseClaims
  import opened Manifest

  // ----- the time window --------------------------------------------------------------------------

  ghost predicate Accepts(m: ManifestDoc, clock: Clock, maxAge: int, contract: Contract) {
    ManifestErrors(m, clock, maxAge, contract) == Success([])
  }

  /** Everything but the two ages is silent. */
  ghost predicate CleanButForTime(m: ManifestDoc, contract: Contract) {
    var checklist := ChecklistErrors(m.checklist, contract, m.commit, m.tag);
    && checklist.Success?
    && IdentityErrors(m) == [] && StatusErrors(m) == []
    && ContentErrors(m) + checklist.value + DecisionErrors(m.decision) == []
  }

  lemma {:induction false} AcceptsIff(m: ManifestDoc, clock: Clock, maxAge: int, contract: Contract)
    ensures Accepts(m, clock, maxAge, contract) <==>
      && CleanButForTime(m, contract)
      && AgeFaults(m.generatedAt, clock.manifest, maxAge) == []
      && ReportAgeFaults(m.report, clock.report, maxAge) == []
  {
    var checklist := ChecklistErrors(m.checklist, contract, m.commit, m.tag);
    if checklist.Success? {
      FiveEmpty(IdentityErrors(m), ManifestAgeErrors(AgeFaults(m.generatedAt, clock.manifest, maxAge)), StatusErrors(m),
                ReportAgeErrors(ReportAgeFaults(m.report, clock.report, maxAge)),
                ContentErrors(m) + checklist.value + DecisionErrors(m.decision));
    }
  }

  lemma {:induction false} InstantIsCurrentIff(g: int, t: int, maxAge: int)
    ensures AgeFaults(Some(At(g)), At(t), maxAge) == [] <==> g <= t <= g + maxAge * SECOND
  {
  }

  lemma {:induction false} MissingReportIsReported(m: ManifestDoc)
    ensures m.report.None? ==> |StatusErrors(m)| > 0
  {
  }

  function Max(a: int, b: int): int { if a >= b then a else b }

  function Min(a: int, b: int): int { if a <= b then a else b }

  /** A manifest that some validation accepts records both instants, and any other validation
      accepts it exactly when each reading lies within the maximal age after its instant. At one
      given moment that is from the later instant up to the earlier one plus the maximal age. */
  lemma {:induction false} AcceptanceWindow(m: ManifestDoc, contract: Contract, clock0: Clock, age0: int, t: int, u: int, maxAge: int)
    requires Accepts(m, clock0, age0, contract)
    ensures m.generatedAt.Some? && m.generatedAt.value.At?
    ensures m.report.Some? && m.report.value.generatedAt.Some? && m.report.value.generatedAt.value.At?
    ensures
      var g, r := m.generatedAt.value.micros, m.report.value.generatedAt.value.micros;
      && (Accepts(m, Clock(At(t), At(u)), maxAge, contract) <==> g <= t <= g + maxAge * SECOND && r <= u <= r + maxAge * SECOND)
      && (t == u ==> (Accepts(m, Still(At(t)), maxAge, contract) <==> Max(g, r) <= t <= Min(g, r) + maxAge * SECOND))
  {
    AcceptsIff(m, clock0, age0, contract);
    MissingReportIsReported(m);
    AcceptsIff(m, Clock(At(t), At(u)), maxAge, contract);
    InstantIsCurrentIff(m.generatedAt.value.micros, t, maxAge);
    InstantIsCurrentIff(m.report.value.generatedAt.value.micros, u, maxAge);
  }

  // ----- building never ends in the check ---------------------------------------------------------

  /** The check of a record that the builder has just made always returns. */
  lemma {:induction false} BuiltRecordIsCheckable(results: Option<Results>, commit: Option<string>, tag: Option<string>, contract: Contract)
    requires BuildRecord(results, commit, tag, contract).Success?
    ensures ChecklistErrors(Some(BuildRecord(results, commit, tag, contract).value), contract, commit, tag).Success?
  {
    var ids, entries, combined := BuiltRecordErrors(results, commit, tag, contract);
  }

  /** Building stops only where the record builder stops. */
  lemma {:induction false} BuildStopsOnlyInTheRecord(input: BuildInput, generatedAt: Timestamp, clock: Clock, contract: Contract)
    ensures Build(input, generatedAt, clock, contract).Success? <==>
      BuildRecord(input.results, Some(input.commit), Some(input.tag), contract).Success?
  {
    if BuildRecord(input.results, Some(input.commit), Some(input.tag), contract).Success? {
      BuiltRecordIsCheckable(input.results, Some(input.commit), Some(input.tag), contract);
    }
  }

  // ----- the fixed point --------------------------------------------------------------------------

  /** The decision a build stores never adds an error of its own. */
  lemma {:induction false} DecisionIsNeutral(input: BuildInput, generatedAt: Timestamp, record: Record, errors: seq<Blocker>,
                                             clock: Clock, maxAge: int, contract: Contract)
    ensures
      var draft := Draft(input, generatedAt, record);
      ManifestErrors(draft.(decision := Some(Decision(Some(DeriveDecision(errors)), errors))), clock, maxAge, contract)
      == ManifestErrors(draft, clock, maxAge, contract)
  {
    var draft := Draft(input, generatedAt, record);
    var final := draft.(decision := Some(Decision(Some(DeriveDecision(errors)), errors)));
    assert DecisionErrors(final.decision) == DecisionErrors(draft.decision) == [];
    assert IdentityErrors(final) == IdentityErrors(draft);
    assert StatusErrors(final) == StatusErrors(draft);
    assert ContentErrors(final) == ContentErrors(draft);
  }

  /** Validating a built manifest at the readings of its build check, with the default maximal age,
      returns exactly the stored reasons; the state is pass exactly when there are none.  With an
      explicit generated_at both readings are generated_at itself. */
  lemma {:induction false} BuildIsAFixedPoint(input: BuildInput, generatedAt: Timestamp, clock: Clock, contract: Contract)
    requires Build(input, generatedAt, clock, contract).Success?
    ensures
      var m := Build(input, generatedAt, clock, contract).value;
      && m.generatedAt == Some(generatedAt) && m.decision.Some?
      && ManifestErrors(m, clock, DEFAULT_MAX_AGE, contract) == Success(m.decision.value.reasons)
      && (m.decision.value.state == Some(PassDecision) <==> m.decision.value.reasons == [])
  {
    var record := BuildRecord(input.results, Some(input.commit), Some(input.tag), contract).value;
    var draft := Draft(input, generatedAt, record);
    var errors := ManifestErrors(draft, clock, DEFAULT_MAX_AGE, contract).value;
    DecisionIsNeutral(input, generatedAt, record, errors, clock, DEFAULT_MAX_AGE, contract);
  }

  // ----- without an explicit generated_at ---------------------------------------------------------

  /**
    A build that stamps itself reads the clock three times: for the stamp, cut to a whole second,
    for the manifest's age and for the report's.  The readings agree with the stamp when the
    manifest is neither ahead of its stamp nor too old, and no bound of the report lies between.
   */
  ghost predicate SteadyClock(stamp: int, manifestNow: int, reportNow: int, report: Option<Timestamp>) {
    && stamp <= manifestNow <= stamp + DEFAULT_MAX_AGE * SECOND
    && (report.Some? && report.value.At? ==>
          var r := report.value.micros;
          && (stamp < r <==> reportNow < r)
          && (stamp > r + DEFAULT_MAX_AGE * SECOND <==> reportNow > r + DEFAULT_MAX_AGE * SECOND))
  }

  lemma {:induction false} NoAgeInStatus(m: ManifestDoc)
    ensures ManifestStale !in StatusErrors(m) && ManifestFuture !in StatusErrors(m)
  {
    var run := RunErrors(m.run);
    assert forall b :: b in run ==> b.ManifestField?;
    forall b | b in StatusErrors(m)
      ensures b in run || b.PrivacyNotShareable? || b.RedactionNotShareable? || b.ManifestField? || b.ReportMissing? || b.ReportSchema?
    {
    }
  }

  /** Inserting x early makes a different list than inserting y late. */
  lemma {:induction false} InsertionsDiffer<T>(a: seq<T>, c: seq<T>, e: seq<T>, x: T, d: seq<T>, d': seq<T>)
    requires x !in c && |d'| <= 1 && (|d'| == 1 ==> d'[0] != x)
    ensures a + [] + c + d' + e != a + [x] + c + d + e
  {
    var left, right := a + [] + c + d' + e, a + [x] + c + d + e;
    assert right[|a|] == x;
    if |left| == |right| {
      assert left[|a|] == if c == [] then d'[0] else c[0];
      assert left[|a|] != x;
    }
  }

  lemma {:induction false} LateListsEqualIff<T>(a: seq<T>, c: seq<T>, e: seq<T>, d: seq<T>, d': seq<T>)
    ensures a + [] + c + d' + e == a + [] + c + d + e <==> d == d'
  {
    var left, right := a + [] + c + d' + e, a + [] + c + d + e;
    if left == right {
      var k := |a| + |c|;
      assert |d| == |d'|;
      assert d' == left[k..k + |d'|] && d == right[k..k + |d|];
    }
  }

  /** What an age check at an instant finds: nothing, the future, or staleness. */
  lemma {:induction false} OneAgeFault(g: int, t: int)
    ensures AgeFaults(Some(At(g)), At(t), DEFAULT_MAX_AGE) ==
      if t < g then [Future] else if t > g + DEFAULT_MAX_AGE * SECOND then [Stale] else []
  {
  }

  lemma {:induction false} ReportAgesEqualIff(stamp: int, reportNow: int, report: Option<Timestamp>)
    ensures
      var d := ReportAgeErrors(AgeFaults(report, At(reportNow), DEFAULT_MAX_AGE));
      var d' := ReportAgeErrors(AgeFaults(report, At(stamp), DEFAULT_MAX_AGE));
      && |d'| <= 1 && (|d'| == 1 ==> d'[0] != ManifestStale && d'[0] != ManifestFuture)
      && (d == d' <==> (report.Some? && report.value.At? ==>
            var r := report.value.micros;
            && (stamp < r <==> reportNow < r)
            && (stamp > r + DEFAULT_MAX_AGE * SECOND <==> reportNow > r + DEFAULT_MAX_AGE * SECOND)))
  {
    if report.Some? && report.value.At? {
      OneAgeFault(report.value.micros, reportNow);
      OneAgeFault(report.value.micros, stamp);
    }
    ReportListsEqualIff(AgeFaults(report, At(reportNow), DEFAULT_MAX_AGE), AgeFaults(report, At(stamp), DEFAULT_MAX_AGE));
  }

  lemma {:induction false} ReportListsEqualIff(a: seq<AgeFault>, b: seq<AgeFault>)
    requires |a| <= 1 && |b| <= 1
    ensures ReportAgeErrors(a) == ReportAgeErrors(b) <==> a == b
    ensures |b| == 1 ==> ReportAgeErrors(b)[0] != ManifestStale && ReportAgeErrors(b)[0] != ManifestFuture
  {
    if |a| == 1 && |b| == 1 && ReportAgeErrors(a) == ReportAgeErrors(b) {
      assert ReportAge(a[0]) == ReportAgeErrors(a)[0] == ReportAgeErrors(b)[0] == ReportAge(b[0]);
      assert a[0] == b[0];
    }
  }

  /** Two checks around fixed lists agree if and only if the clock is steady. */
  lemma {:induction false} AgesAgreeIff(a: seq<Blocker>, c: seq<Blocker>, e: seq<Blocker>,
                                        stamp: int, manifestNow: int, reportNow: int, report: Option<Timestamp>)
    requires ManifestStale !in c && ManifestFuture !in c
    ensures
      var b := ManifestAgeErrors(AgeFaults(Some(At(stamp)), At(manifestNow), DEFAULT_MAX_AGE));
      var b' := ManifestAgeErrors(AgeFaults(Some(At(stamp)), At(stamp), DEFAULT_MAX_AGE));
      var d := ReportAgeErrors(AgeFaults(report, At(reportNow), DEFAULT_MAX_AGE));
      var d' := ReportAgeErrors(AgeFaults(report, At(stamp), DEFAULT_MAX_AGE));
      a + b' + c + d' + e == a + b + c + d + e <==> SteadyClock(stamp, manifestNow, reportNow, report)
  {
    var b := ManifestAgeErrors(AgeFaults(Some(At(stamp)), At(manifestNow), DEFAULT_MAX_AGE));
    var b' := ManifestAgeErrors(AgeFaults(Some(At(stamp)), At(stamp), DEFAULT_MAX_AGE));
    var d := ReportAgeErrors(AgeFaults(report, At(reportNow), DEFAULT_MAX_AGE));
    var d' := ReportAgeErrors(AgeFaults(report, At(stamp), DEFAULT_MAX_AGE));
    OneAgeFault(stamp, stamp);
    OneAgeFault(stamp, manifestNow);
    ReportAgesEqualIff(stamp, reportNow, report);
    assert b' == [];
    if b == [] {
      LateListsEqualIff(a, c, e, d, d');
    } else {
      assert b == [b[0]] && (b[0] == ManifestFuture || b[0] == ManifestStale);
      InsertionsDiffer(a, c, e, b[0], d, d');
    }
  }

  lemma {:induction false} ReadingsAgreeIff(m: ManifestDoc, stamp: int, manifestNow: int, reportNow: int, contract: Contract)
    requires m.generatedAt == Some(At(stamp)) && m.report.Some?
    requires ManifestErrors(m, Clock(At(manifestNow), At(reportNow)), DEFAULT_MAX_AGE, contract).Success?
    ensures ManifestErrors(m, Still(At(stamp)), DEFAULT_MAX_AGE, contract)
         == ManifestErrors(m, Clock(At(manifestNow), At(reportNow)), DEFAULT_MAX_AGE, contract)
      <==> SteadyClock(stamp, manifestNow, reportNow, m.report.value.generatedAt)
  {
    var checklist := ChecklistErrors(m.checklist, contract, m.commit, m.tag).value;
    NoAgeInStatus(m);
    AgesAgreeIff(IdentityErrors(m), StatusErrors(m), ContentErrors(m) + checklist + DecisionErrors(m.decision),
                 stamp, manifestNow, reportNow, m.report.value.generatedAt);
  }

  /** Validating the manifest at the moment t finds exactly the reasons stored in it. */
  ghost predicate AgreesAt(m: ManifestDoc, t: int, contract: Contract) {
    m.decision.Some? && ManifestErrors(m, Still(At(t)), DEFAULT_MAX_AGE, contract) == Success(m.decision.value.reasons)
  }

  /** A self-stamped build and a validation at its stamp agree if and only if the clock is steady. */
  lemma {:induction false} SelfStampedFixedPointIff(input: BuildInput, stamp: int, manifestNow: int, reportNow: int, contract: Contract)
    requires Build(input, At(stamp), Clock(At(manifestNow), At(reportNow)), contract).Success?
    ensures AgreesAt(Build(input, At(stamp), Clock(At(manifestNow), At(reportNow)), contract).value, stamp, contract) <==>
      SteadyClock(stamp, manifestNow, reportNow, input.report.generatedAt)
  {
    var clock := Clock(At(manifestNow), At(reportNow));
    BuildIsAFixedPoint(input, At(stamp), clock, contract);
    ReadingsAgreeIff(Build(input, At(stamp), clock, contract).value, stamp, manifestNow, reportNow, contract);
  }

  /** The fixed point at the stamp does fail: any buildable input, checked half a second after its
      stamp with a report finished in between, is accepted as not from the future by the build and
      rejected for that by the validation. */
  lemma {:induction false} SelfStampedBuildCanDisagree(input: BuildInput, stamp: int, now: int, contract: Contract)
    requires BuildRecord(input.results, Some(input.commit), Some(input.tag), contract).Success?
    requires now == stamp + SECOND / 2 && input.report.generatedAt == Some(At(stamp + SECOND / 4))
    ensures Build(input, At(stamp), Still(At(now)), contract).Success?
    ensures !AgreesAt(Build(input, At(stamp), Still(At(now)), contract).value, stamp, contract)
  {
    BuildStopsOnlyInTheRecord(input, At(stamp), Still(At(now)), contract);
    SelfStampedFixedPointIff(input, stamp, now, now, contract);
  }

  /** The third reading matters by itself: the manifest is read on the last moment of its age, the
      report, finished at the stamp, one microsecond later. */
  lemma {:induction false} ThirdReadingCanDisagree(input: BuildInput, stamp: int, now: int, contract: Contract)
    requires BuildRecord(input.results, Some(input.commit), Some(input.tag), contract).Success?
    requires now == stamp + DEFAULT_MAX_AGE * SECOND && input.report.generatedAt == Some(At(stamp))
    ensures Build(input, At(stamp), Still(At(now)), contract).Success?
    ensures Build(input, At(stamp), Clock(At(now), At(now + 1)), contract).Success?
    ensures AgreesAt(Build(input, At(stamp), Still(At(now)), contract).value, stamp, contract)
    ensures !AgreesAt(Build(input, At(stamp), Clock(At(now), At(now + 1)), contract).value, stamp, contract)
  {
    BuildStopsOnlyInTheRecord(input, At(stamp), Still(At(now)), contract);
    BuildStopsOnlyInTheRecord(input, At(stamp), Clock(At(now), At(now + 1)), contract);
    SelfStampedFixedPointIff(input, stamp, now, now, contract);
    SelfStampedFixedPointIff(input, stamp, now, now + 1, contract);
  }
}
