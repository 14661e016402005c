/**
  The release-critical claims of a manifest and its operability assurance. A claim is an object, as
  is every entry that the check reads fields of.
 */
module ReleaseClaims {
  import opened Basics
  import opened ChecklistRegistry

  datatype DecisionKind = PassDecision | OptionalDecision | SoftBlock | HardBlock | BlockedForPrivacy | OtherDecision(text: string)

  function DecisionText(state: Option<DecisionKind>): string {
    if state.Some? && state.value.OtherDecision? then state.value.text else "None"
  }

  predicate KnownDecision(state: Option<DecisionKind>) {
    state.Some? && !state.value.OtherDecision?
  }

  // ----- claims -----------------------------------------------------------------------------------

  datatype StageEvidence = StageEvidence(sha: Option<string>, date: Option<string>, path: Option<string>, summary: Option<string>)

  datatype History = History(initial: Option<StageEvidence>, pivot: Option<StageEvidence>, current: Option<StageEvidence>)

  datatype Claim = Claim(
    id: Option<string>,
    state: Option<DecisionKind>,
    evidence: Option<History>,
    historyRelevant: bool,
    notRelevantReason: Option<string>)

  function StageErrors(i: nat, stage: Stage, evidence: Option<StageEvidence>): seq<Blocker> {
    if evidence.None? then [ClaimStage(i, stage)]
    else
      var e := evidence.value;
      (if !Given(e.sha) then [ClaimKey(i, stage, StageSha)] else [])
      + (if !Given(e.date) then [ClaimKey(i, stage, StageDate)] else [])
      + (if !Given(e.path) then [ClaimKey(i, stage, StagePath)] else [])
      + (if !Given(e.summary) then [ClaimKey(i, stage, StageSummary)] else [])
      + (if e.sha.Some? && !IsLowerHex(e.sha.value, 40) && !IsLowerHex(e.sha.value, 64) then [ClaimSha(i, stage)] else [])
      + (if e.date.Some? && !DateShape(e.date.value) then [ClaimDate(i, stage)] else [])
  }

  function StateErrors(i: nat, state: Option<DecisionKind>): seq<Blocker> {
    if KnownDecision(state) then [] else [ClaimState(i, DecisionText(state))]
  }

  function OneClaimErrors(i: nat, c: Claim): seq<Blocker> {
    if c.evidence.None? then StateErrors(i, c.state) + [ClaimEvidence(i)]
    else
      StateErrors(i, c.state)
      + (if !c.historyRelevant && !Given(c.notRelevantReason) then [ClaimReason(i)] else [])
      + (if c.historyRelevant then StageErrors(i, InitialStage, c.evidence.value.initial) + StageErrors(i, PivotStage, c.evidence.value.pivot) else [])
      + StageErrors(i, CurrentStage, c.evidence.value.current)
  }

  function ClaimErrors(claims: Option<seq<Claim>>): seq<Blocker> {
    if claims.None? then [ClaimsNotList]
    else if claims.value == [] then [ClaimsEmpty]
    else Joined(claims.value, OneClaimErrors, |claims.value|)
  }

  method ClaimBlockers(claims: Option<seq<Claim>>) returns (errors: seq<Blocker>)
    ensures errors == ClaimErrors(claims)
    ensures errors == [] <==> GoodClaims(claims)
  {
    if claims.None? {
      errors := [ClaimsNotList];
    } else if claims.value == [] {
      errors := [ClaimsEmpty];
    } else {
      errors := JoinChecks(claims.value, OneClaimErrors);
    }
    ClaimsIff(claims);
  }

  /** Evidence of a stage: a digest of a commit or a file, a date, a path and a summary. */
  ghost predicate GoodStage(evidence: Option<StageEvidence>) {
    && evidence.Some?
    && evidence.value.sha.Some? && (IsLowerHex(evidence.value.sha.value, 40) || IsLowerHex(evidence.value.sha.value, 64))
    && evidence.value.date.Some? && DateShape(evidence.value.date.value)
    && Given(evidence.value.path) && Given(evidence.value.summary)
  }

  /** A claim with a known state and evidence of now, and of its history or why that does not matter. */
  ghost predicate GoodClaim(c: Claim) {
    && KnownDecision(c.state) && c.evidence.Some? && GoodStage(c.evidence.value.current)
    && (if c.historyRelevant then GoodStage(c.evidence.value.initial) && GoodStage(c.evidence.value.pivot)
        else Given(c.notRelevantReason))
  }

  ghost predicate GoodClaims(claims: Option<seq<Claim>>) {
    claims.Some? && claims.value != [] && forall k :: 0 <= k < |claims.value| ==> GoodClaim(claims.value[k])
  }

  lemma {:induction false} StageIff(i: nat, stage: Stage, evidence: Option<StageEvidence>)
    ensures StageErrors(i, stage, evidence) == [] <==> GoodStage(evidence)
  {
  }

  lemma {:induction false} OneClaimIff(i: nat, c: Claim)
    ensures OneClaimErrors(i, c) == [] <==> GoodClaim(c)
  {
    if c.evidence.Some? {
      var h := c.evidence.value;
      StageIff(i, InitialStage, h.initial);
      StageIff(i, PivotStage, h.pivot);
      StageIff(i, CurrentStage, h.current);
      var a, b := StateErrors(i, c.state), if !c.historyRelevant && !Given(c.notRelevantReason) then [ClaimReason(i)] else [];
      var d := if c.historyRelevant then StageErrors(i, InitialStage, h.initial) + StageErrors(i, PivotStage, h.pivot) else [];
      FiveEmpty(a, b, d, StageErrors(i, CurrentStage, h.current), []);
      assert a + b + d + StageErrors(i, CurrentStage, h.current) + [] == a + b + d + StageErrors(i, CurrentStage, h.current);
    }
  }

  /** No claim errors if and only if there are claims and all of them are good. */
  lemma {:induction false} ClaimsIff(claims: Option<seq<Claim>>)
    ensures ClaimErrors(claims) == [] <==> GoodClaims(claims)
  {
    if claims.Some? && claims.value != [] {
      JoinedEmptyIff(claims.value, OneClaimErrors, |claims.value|);
      forall k | 0 <= k < |claims.value|
        ensures OneClaimErrors(k, claims.value[k]) == [] <==> GoodClaim(claims.value[k])
      {
        OneClaimIff(k, claims.value[k]);
      }
    }
  }

  // ----- operability assurance --------------------------------------------------------------------

  datatype Mode = InteractiveRuntime | ExactShaCiSubstitute | OtherMode(text: string)

  datatype RuntimeReceipt = RuntimeReceipt(state: Option<string>, receipt: Option<string>)

  datatype CiReceipt = CiReceipt(
    head: Option<string>,
    conclusion: Option<string>,
    workflow: Option<string>,
    url: Option<string>,
    checkCount: Option<int>,
    platforms: Option<seq<string>>)

  /** An entry of the list is None when it is not an object. */
  datatype Deferred = NotGiven | DeferredList(entries: seq<Option<DeferredClaim>>) | NotAList

  datatype DeferredClaim = DeferredClaim(id: Option<string>, state: Option<string>)

  datatype OperabilityAssurance = OperabilityAssurance(
    mode: Option<Mode>,
    commit: Option<string>,
    scope: Option<string>,
    runtime: Option<RuntimeReceipt>,
    deferred: Deferred,
    checks: Option<CiReceipt>,
    smoke: Option<CiReceipt>,
    gates: Option<CiReceipt>)

  const TCC_CLAIM := "macos_tcc_grant_revoke_suppression_recovery"
  const CONSENT_CLAIM := "macos_consent_byte_invariance"
  const GITHUB := "https://github.com/"

  function PlatformNames(): seq<string> {
    ["linux", "macos-arm64", "macos-x64", "windows"]
  }

  function Workflow(name: CiName): string {
    match name case AutomaticChecks => "commit_checks" case ReleaseSmoke => "Release Smoke" case IntegrityGates => "Integrity Gates"
  }

  function If(there: bool, fault: AssuranceFault): seq<Blocker> {
    if there then [Assurance(fault)] else []
  }

  function CiErrors(receipt: Option<CiReceipt>, name: CiName, commit: Option<string>): seq<Blocker> {
    if receipt.None? then [Assurance(CiMissing(name))]
    else
      var r := receipt.value;
      If(r.head != commit, CiHead(name)) + If(r.conclusion != Some("success"), CiConclusion(name))
      + If(r.workflow != Some(Workflow(name)), CiWorkflow(name)) + If(!(r.url.Some? && GITHUB <= r.url.value), CiUrl(name))
  }

  function CountErrors(checks: Option<CiReceipt>): seq<Blocker> {
    If(checks.Some? && !(checks.value.checkCount.Some? && checks.value.checkCount.value >= 1), CheckCount)
  }

  /** Two lists with the same values. */
  predicate SameValues<T(==)>(a: seq<T>, b: seq<T>) {
    (forall x :: x in a ==> x in b) && (forall x :: x in b ==> x in a)
  }

  function PlatformErrors(smoke: Option<CiReceipt>): seq<Blocker> {
    if smoke.None? then []
    else if smoke.value.platforms.None? || !SameValues(smoke.value.platforms.value, PlatformNames()) then [Assurance(Platforms)]
    else If(|smoke.value.platforms.value| != 4, PlatformsNotUnique)
  }

  /** The ids of the entries that are objects. */
  function DeferredIdsOf(entries: seq<Option<DeferredClaim>>): seq<Option<string>> {
    if entries == [] then []
    else (if entries[0].Some? then [entries[0].value.id] else []) + DeferredIdsOf(entries[1..])
  }

  function DeferredNames(): seq<Option<string>> {
    [Some(TCC_CLAIM), Some(CONSENT_CLAIM)]
  }

  predicate Unproven(entry: Option<DeferredClaim>) {
    entry.Some? && entry.value.state == Some("deferred_unproven")
  }

  function StateLists(entries: seq<Option<DeferredClaim>>): (r: seq<seq<Blocker>>)
    ensures |r| == |entries| && forall k :: 0 <= k < |r| ==> r[k] == If(!Unproven(entries[k]), DeferredState)
  {
    seq(|entries|, k requires 0 <= k < |entries| => If(!Unproven(entries[k]), DeferredState))
  }

  function DeferredErrors(deferred: Deferred): seq<Blocker> {
    if !deferred.DeferredList? then [Assurance(DeferredNotList)]
    else
      var ids := DeferredIdsOf(deferred.entries);
      If(!SameValues(ids, DeferredNames()), DeferredIds) + If(|ids| != 2, DeferredNotUnique)
      + Flatten(StateLists(deferred.entries), |deferred.entries|)
  }

  predicate PassesDeferred(c: Claim) {
    c.id.Some? && (c.id.value == TCC_CLAIM || c.id.value == CONSENT_CLAIM) && c.state == Some(PassDecision)
  }

  function PassLists(claims: seq<Claim>): (r: seq<seq<Blocker>>)
    ensures |r| == |claims|
    ensures forall k :: 0 <= k < |r| ==> r[k] == if PassesDeferred(claims[k]) then [DeferredPass(claims[k].id.value == TCC_CLAIM)] else []
  {
    seq(|claims|, k requires 0 <= k < |claims| => if PassesDeferred(claims[k]) then [DeferredPass(claims[k].id.value == TCC_CLAIM)] else [])
  }

  function RuntimeErrors(a: OperabilityAssurance): seq<Blocker> {
    If(a.scope != Some("interactive_runtime"), RuntimeScope)
    + (if a.runtime.None? then [Assurance(RuntimeMissing)]
       else If(a.runtime.value.state != Some("pass"), RuntimeState) + If(!Given(a.runtime.value.receipt), RuntimeReference))
    + If(a.deferred != NotGiven && a.deferred != DeferredList([]), RuntimeDefers)
  }

  function SubstituteErrors(a: OperabilityAssurance, commit: Option<string>): seq<Blocker> {
    If(a.scope != Some("release_operability_only"), SubstituteScope)
    + (CiErrors(a.checks, AutomaticChecks, commit) + CountErrors(a.checks))
    + (CiErrors(a.smoke, ReleaseSmoke, commit) + PlatformErrors(a.smoke))
    + CiErrors(a.gates, IntegrityGates, commit)
    + DeferredErrors(a.deferred)
  }

  /** The claims that enter here are none when the manifest's claims are no list. */
  function AssuranceErrors(assurance: Option<OperabilityAssurance>, commit: Option<string>, claims: Option<seq<Claim>>): seq<Blocker> {
    if assurance.None? then [AssuranceMissing]
    else
      var a := assurance.value;
      if a.mode.None? then [AssuranceMode("None")]
      else
        match a.mode.value
        case OtherMode(text) => [AssuranceMode(text)]
        case InteractiveRuntime => If(a.commit != commit, OtherCommit) + RuntimeErrors(a)
        case ExactShaCiSubstitute =>
          If(a.commit != commit, OtherCommit) + SubstituteErrors(a, commit) + PassErrorsOf(if claims.Some? then claims.value else [])
  }

  /** The claims that pass although they are to be put off. */
  function PassErrorsOf(claims: seq<Claim>): seq<Blocker> {
    Flatten(PassLists(claims), |claims|)
  }

  // ----- what an accepted assurance is ------------------------------------------------------------

  /** A run of this workflow on this commit that ended in success. */
  ghost predicate GoodCi(receipt: Option<CiReceipt>, name: CiName, commit: Option<string>) {
    && receipt.Some? && receipt.value.head == commit && receipt.value.conclusion == Some("success")
    && receipt.value.workflow == Some(Workflow(name)) && receipt.value.url.Some? && GITHUB <= receipt.value.url.value
  }

  /** Interactive evidence on this commit, with nothing put off. */
  ghost predicate GoodRuntime(a: OperabilityAssurance) {
    && a.scope == Some("interactive_runtime")
    && a.runtime.Some? && a.runtime.value.state == Some("pass") && Given(a.runtime.value.receipt)
    && (a.deferred == NotGiven || a.deferred == DeferredList([]))
  }

  /** The two macOS claims are put off as unproven, once each and nothing else. */
  ghost predicate GoodDeferral(deferred: Deferred) {
    && deferred.DeferredList?
    && (forall k :: 0 <= k < |deferred.entries| ==> Unproven(deferred.entries[k]))
    && multiset(DeferredIdsOf(deferred.entries)) == multiset(DeferredNames())
  }

  /** Successful automation on this commit: the checks, the smoke run once on each of the four
      platforms, the integrity gates. */
  ghost predicate GoodSubstitute(a: OperabilityAssurance, commit: Option<string>) {
    && a.scope == Some("release_operability_only")
    && GoodCi(a.checks, AutomaticChecks, commit) && a.checks.value.checkCount.Some? && a.checks.value.checkCount.value >= 1
    && GoodCi(a.smoke, ReleaseSmoke, commit) && a.smoke.value.platforms.Some?
    && multiset(a.smoke.value.platforms.value) == multiset(PlatformNames())
    && GoodCi(a.gates, IntegrityGates, commit)
    && GoodDeferral(a.deferred)
  }

  ghost predicate GoodAssurance(assurance: Option<OperabilityAssurance>, commit: Option<string>, claims: Option<seq<Claim>>) {
    && assurance.Some? && assurance.value.commit == commit
    && (|| (assurance.value.mode == Some(InteractiveRuntime) && GoodRuntime(assurance.value))
        || (assurance.value.mode == Some(ExactShaCiSubstitute) && GoodSubstitute(assurance.value, commit)
            && (claims.Some? ==> forall k :: 0 <= k < |claims.value| ==> !PassesDeferred(claims.value[k]))))
  }

  lemma {:induction false} CiIff(receipt: Option<CiReceipt>, name: CiName, commit: Option<string>)
    ensures CiErrors(receipt, name, commit) == [] <==> GoodCi(receipt, name, commit)
  {
  }

  /** A list with the values of a list without repeats, as long as that one, is a rearrangement of it. */
  lemma {:induction false} SameSizeIsPermutation<T>(a: seq<T>, b: seq<T>)
    requires Distinct(b)
    ensures SameValues(a, b) && |a| == |b| <==> multiset(a) == multiset(b)
  {
    if multiset(a) == multiset(b) {
      assert |multiset(a)| == |a| && |multiset(b)| == |b|;
      assert forall x :: x in a <==> x in multiset(a);
      assert forall x :: x in b <==> x in multiset(b);
    }
    if SameValues(a, b) && |a| == |b| {
      Rearranged(a, b);
    }
  }

  lemma {:induction false} Rearranged<T>(a: seq<T>, b: seq<T>)
    requires Distinct(b) && SameValues(a, b) && |a| == |b|
    ensures multiset(a) == multiset(b)
  {
    Contained(a, b);
    assert multiset(a) == multiset(b) + (multiset(a) - multiset(b));
    assert |multiset(a)| == |a| && |multiset(b)| == |b|;
  }

  /** A list without repeats is contained, value for value, in every list with its values. */
  lemma {:induction false} Contained<T>(a: seq<T>, b: seq<T>)
    requires Distinct(b) && forall x :: x in b ==> x in a
    ensures multiset(b) <= multiset(a)
  {
    forall x
      ensures multiset(b)[x] <= multiset(a)[x]
    {
      AtMostOnce(b, x);
      if x in b {
        assert x in multiset(a);
      }
    }
  }

  lemma {:induction false} AtMostOnce<T>(b: seq<T>, x: T)
    requires Distinct(b)
    ensures multiset(b)[x] <= 1
  {
    if b != [] {
      var init, last := b[..|b| - 1], b[|b| - 1];
      assert b == init + [last];
      AtMostOnce(init, x);
      assert last !in init;
      assert multiset(init)[last] == 0;
    }
  }

  lemma {:induction false} PlatformsDiffer()
    ensures Distinct(PlatformNames()) && Distinct(DeferredNames())
  {
    assert |TCC_CLAIM| != |CONSENT_CLAIM|;
  }

  lemma {:induction false} PlatformsIff(smoke: Option<CiReceipt>)
    requires smoke.Some?
    ensures PlatformErrors(smoke) == [] <==>
      smoke.value.platforms.Some? && multiset(smoke.value.platforms.value) == multiset(PlatformNames())
  {
    PlatformsDiffer();
    if smoke.value.platforms.Some? {
      SameSizeIsPermutation(smoke.value.platforms.value, PlatformNames());
    }
  }

  lemma {:induction false} StatesIff(entries: seq<Option<DeferredClaim>>)
    ensures Flatten(StateLists(entries), |entries|) == [] <==> forall k :: 0 <= k < |entries| ==> Unproven(entries[k])
  {
    FlattenEmptyIff(StateLists(entries), |entries|);
    assert forall k :: 0 <= k < |entries| ==> (StateLists(entries)[k] == [] <==> Unproven(entries[k]));
  }

  lemma {:induction false} IdsIff(ids: seq<Option<string>>)
    ensures If(!SameValues(ids, DeferredNames()), DeferredIds) + If(|ids| != 2, DeferredNotUnique) == [] <==>
      multiset(ids) == multiset(DeferredNames())
  {
    PlatformsDiffer();
    SameSizeIsPermutation(ids, DeferredNames());
    ThreeListsEmpty(If(!SameValues(ids, DeferredNames()), DeferredIds), If(|ids| != 2, DeferredNotUnique), []);
  }

  lemma {:induction false} DeferralIff(deferred: Deferred)
    ensures DeferredErrors(deferred) == [] <==> GoodDeferral(deferred)
  {
    if deferred.DeferredList? {
      var ids := DeferredIdsOf(deferred.entries);
      StatesIff(deferred.entries);
      IdsIff(ids);
      ThreeListsEmpty(If(!SameValues(ids, DeferredNames()), DeferredIds) + If(|ids| != 2, DeferredNotUnique),
                      Flatten(StateLists(deferred.entries), |deferred.entries|), []);
    }
  }

  lemma {:induction false} RuntimeIff(a: OperabilityAssurance)
    ensures RuntimeErrors(a) == [] <==> GoodRuntime(a)
  {
  }

  lemma {:induction false} ChecksIff(checks: Option<CiReceipt>, commit: Option<string>)
    ensures CiErrors(checks, AutomaticChecks, commit) + CountErrors(checks) == [] <==>
      GoodCi(checks, AutomaticChecks, commit) && checks.value.checkCount.Some? && checks.value.checkCount.value >= 1
  {
    CiIff(checks, AutomaticChecks, commit);
    ThreeListsEmpty(CiErrors(checks, AutomaticChecks, commit), CountErrors(checks), []);
  }

  lemma {:induction false} SmokeIff(smoke: Option<CiReceipt>, commit: Option<string>)
    ensures CiErrors(smoke, ReleaseSmoke, commit) + PlatformErrors(smoke) == [] <==>
      && GoodCi(smoke, ReleaseSmoke, commit) && smoke.value.platforms.Some?
      && multiset(smoke.value.platforms.value) == multiset(PlatformNames())
  {
    CiIff(smoke, ReleaseSmoke, commit);
    if smoke.Some? {
      PlatformsIff(smoke);
    }
    ThreeListsEmpty(CiErrors(smoke, ReleaseSmoke, commit), PlatformErrors(smoke), []);
  }

  lemma {:induction false} SubstituteIff(a: OperabilityAssurance, commit: Option<string>)
    ensures SubstituteErrors(a, commit) == [] <==> GoodSubstitute(a, commit)
  {
    ChecksIff(a.checks, commit);
    SmokeIff(a.smoke, commit);
    CiIff(a.gates, IntegrityGates, commit);
    DeferralIff(a.deferred);
    FiveEmpty(If(a.scope != Some("release_operability_only"), SubstituteScope),
                   CiErrors(a.checks, AutomaticChecks, commit) + CountErrors(a.checks),
                   CiErrors(a.smoke, ReleaseSmoke, commit) + PlatformErrors(a.smoke),
                   CiErrors(a.gates, IntegrityGates, commit), DeferredErrors(a.deferred));
  }

  lemma {:induction false} PassListsIff(claims: seq<Claim>)
    ensures PassErrorsOf(claims) == [] <==> forall k :: 0 <= k < |claims| ==> !PassesDeferred(claims[k])
  {
    FlattenEmptyIff(PassLists(claims), |claims|);
    assert forall k :: 0 <= k < |claims| ==> (PassLists(claims)[k] == [] <==> !PassesDeferred(claims[k]));
  }

  lemma {:induction false} ThreeListsEmpty<T>(a: seq<T>, b: seq<T>, c: seq<T>)
    ensures a + b + c == [] <==> a == [] && b == [] && c == []
    ensures a + b == [] <==> a == [] && b == []
  {
    assert |a + b + c| == |a| + |b| + |c|;
  }

  /** No assurance errors if and only if one of the two kinds of assurance is complete. */
  lemma {:induction false} AssuranceIff(assurance: Option<OperabilityAssurance>, commit: Option<string>, claims: Option<seq<Claim>>)
    ensures AssuranceErrors(assurance, commit, claims) == [] <==> GoodAssurance(assurance, commit, claims)
  {
    if assurance.Some? && assurance.value.mode == Some(InteractiveRuntime) {
      var a := assurance.value;
      RuntimeIff(a);
      ThreeListsEmpty(If(a.commit != commit, OtherCommit), RuntimeErrors(a), []);
    } else if assurance.Some? && assurance.value.mode == Some(ExactShaCiSubstitute) {
      SubstituteAssuranceIff(assurance.value, commit, if claims.Some? then claims.value else []);
    }
  }

  lemma {:induction false} SubstituteAssuranceIff(a: OperabilityAssurance, commit: Option<string>, listed: seq<Claim>)
    ensures If(a.commit != commit, OtherCommit) + SubstituteErrors(a, commit) + PassErrorsOf(listed) == [] <==>
      a.commit == commit && GoodSubstitute(a, commit) && forall k :: 0 <= k < |listed| ==> !PassesDeferred(listed[k])
  {
    SubstituteIff(a, commit);
    PassListsIff(listed);
    ThreeListsEmpty(If(a.commit != commit, OtherCommit), SubstituteErrors(a, commit), PassErrorsOf(listed));
  }

  method DeferredPassBlockers(claims: seq<Claim>) returns (errors: seq<Blocker>)
    ensures errors == PassErrorsOf(claims)
  {
    errors := [];
    for index := 0 to |claims|
      invariant errors == Flatten(PassLists(claims), index)
    {
      if PassesDeferred(claims[index]) {
        errors := errors + [DeferredPass(claims[index].id.value == TCC_CLAIM)];
      }
    }
  }

  method AssuranceBlockers(assurance: Option<OperabilityAssurance>, commit: Option<string>, claims: Option<seq<Claim>>) returns (errors: seq<Blocker>)
    ensures errors == AssuranceErrors(assurance, commit, claims)
    ensures errors == [] <==> GoodAssurance(assurance, commit, claims)
  {
    AssuranceIff(assurance, commit, claims);
    if assurance.None? {
      return [AssuranceMissing];
    }
    var a := assurance.value;
    if a.mode.None? {
      return [AssuranceMode("None")];
    }
    match a.mode.value {
      case OtherMode(text) =>
        errors := [AssuranceMode(text)];
      case InteractiveRuntime =>
        errors := If(a.commit != commit, OtherCommit) + RuntimeErrors(a);
      case ExactShaCiSubstitute =>
        var passes := DeferredPassBlockers(if claims.Some? then claims.value else []);
        errors := If(a.commit != commit, OtherCommit) + SubstituteErrors(a, commit) + passes;
    }
  }

  // ----- what the messages quote ------------------------------------------------------------------

  /** A message about claims or assurance that quotes nothing. */
  predicate Fixed(b: Blocker) {
    || b.ClaimsNotList? || b.ClaimsEmpty? || b.ClaimEvidence? || b.ClaimReason? || b.ClaimStage? || b.ClaimKey?
    || b.ClaimSha? || b.ClaimDate? || b.AssuranceMissing? || b.Assurance? || b.DeferredPass?
  }

  ghost predicate AllFixed(errors: seq<Blocker>) {
    forall b :: b in errors ==> Fixed(b)
  }

  lemma {:induction false} FixedThree(a: seq<Blocker>, b: seq<Blocker>, c: seq<Blocker>)
    requires AllFixed(a) && AllFixed(b) && AllFixed(c)
    ensures AllFixed(a + b) && AllFixed(a + b + c)
  {
  }

  lemma {:induction false} FixedFlatten(xs: seq<seq<Blocker>>, n: nat)
    requires n <= |xs| && forall k :: 0 <= k < n ==> AllFixed(xs[k])
    ensures AllFixed(Flatten(xs, n))
  {
    if n > 0 {
      FixedFlatten(xs, n - 1);
      FixedThree(Flatten(xs, n - 1), xs[n - 1], []);
    }
  }

  lemma {:induction false} StageIsFixed(i: nat, stage: Stage, evidence: Option<StageEvidence>)
    ensures AllFixed(StageErrors(i, stage, evidence))
  {
  }

  /** The only quotation of a claim is its unsupported state. */
  lemma {:induction false} ClaimQuotesItsState(i: nat, c: Claim, b: Blocker)
    requires b in OneClaimErrors(i, c)
    ensures Fixed(b) || (!KnownDecision(c.state) && b == ClaimState(i, DecisionText(c.state)))
  {
    var head := StateErrors(i, c.state);
    if b !in head {
      if c.evidence.None? {
        assert b in head + [ClaimEvidence(i)];
      } else {
        var h := c.evidence.value;
        var x := if !c.historyRelevant && !Given(c.notRelevantReason) then [ClaimReason(i)] else [];
        var s, t, u := StageErrors(i, InitialStage, h.initial), StageErrors(i, PivotStage, h.pivot), StageErrors(i, CurrentStage, h.current);
        StageIsFixed(i, InitialStage, h.initial);
        StageIsFixed(i, PivotStage, h.pivot);
        StageIsFixed(i, CurrentStage, h.current);
        TailIsFixed(head, x, if c.historyRelevant then s + t else [], u, b);
      }
    }
  }

  lemma {:induction false} TailIsFixed(head: seq<Blocker>, x: seq<Blocker>, y: seq<Blocker>, z: seq<Blocker>, b: Blocker)
    requires AllFixed(x) && AllFixed(y) && AllFixed(z) && b in head + x + y + z && b !in head
    ensures Fixed(b)
  {
  }

  lemma {:induction false} UnknownStateIsReported(i: nat, c: Claim)
    requires !KnownDecision(c.state)
    ensures ClaimState(i, DecisionText(c.state)) in OneClaimErrors(i, c)
  {
    assert OneClaimErrors(i, c)[0] == StateErrors(i, c.state)[0];
  }

  /** Exactly the unsupported states are quoted. */
  lemma {:induction false} ClaimsQuoteIff(claims: seq<Claim>, b: Blocker)
    requires !Fixed(b)
    ensures b in ClaimErrors(Some(claims)) <==>
      exists k: nat :: k < |claims| && !KnownDecision(claims[k].state) && b == ClaimState(k, DecisionText(claims[k].state))
  {
    if claims != [] {
      JoinedHas(claims, OneClaimErrors, |claims|, b);
      if b in ClaimErrors(Some(claims)) {
        var k :| 0 <= k < |claims| && b in OneClaimErrors(k, claims[k]);
        ClaimQuotesItsState(k, claims[k], b);
      }
      if k: nat :| k < |claims| && !KnownDecision(claims[k].state) && b == ClaimState(k, DecisionText(claims[k].state)) {
        UnknownStateIsReported(k, claims[k]);
        assert b in OneClaimErrors(k, claims[k]);
      }
    }
  }

  lemma {:induction false} DeferralIsFixed(deferred: Deferred)
    ensures AllFixed(DeferredErrors(deferred))
  {
    if deferred.DeferredList? {
      var ids := DeferredIdsOf(deferred.entries);
      FixedFlatten(StateLists(deferred.entries), |deferred.entries|);
      FixedThree(If(!SameValues(ids, DeferredNames()), DeferredIds), If(|ids| != 2, DeferredNotUnique),
                 Flatten(StateLists(deferred.entries), |deferred.entries|));
    }
  }

  lemma {:induction false} CiIsFixed(receipt: Option<CiReceipt>, name: CiName, commit: Option<string>)
    ensures AllFixed(CiErrors(receipt, name, commit))
  {
  }

  lemma {:induction false} SubstituteIsFixed(a: OperabilityAssurance, commit: Option<string>)
    ensures AllFixed(SubstituteErrors(a, commit))
  {
    CiIsFixed(a.checks, AutomaticChecks, commit);
    CiIsFixed(a.smoke, ReleaseSmoke, commit);
    CiIsFixed(a.gates, IntegrityGates, commit);
    DeferralIsFixed(a.deferred);
    var s := If(a.scope != Some("release_operability_only"), SubstituteScope);
    var c, n := CiErrors(a.checks, AutomaticChecks, commit), CountErrors(a.checks);
    var k, p := CiErrors(a.smoke, ReleaseSmoke, commit), PlatformErrors(a.smoke);
    FixedThree(c, n, []);
    FixedThree(k, p, []);
    FixedThree(s, c + n, k + p);
    FixedThree(s + (c + n) + (k + p), CiErrors(a.gates, IntegrityGates, commit), DeferredErrors(a.deferred));
  }

  lemma {:induction false} RuntimeIsFixed(a: OperabilityAssurance)
    ensures AllFixed(RuntimeErrors(a))
  {
  }

  /** The only quotation of an assurance is its unsupported mode. */
  lemma {:induction false} AssuranceQuotesItsMode(assurance: Option<OperabilityAssurance>, commit: Option<string>, claims: Option<seq<Claim>>)
    ensures (assurance.Some? && (assurance.value.mode.None? || assurance.value.mode.value.OtherMode?)) ==>
      AssuranceErrors(assurance, commit, claims) ==
        [AssuranceMode(if assurance.value.mode.Some? then assurance.value.mode.value.text else "None")]
    ensures (assurance.None? || (assurance.value.mode.Some? && !assurance.value.mode.value.OtherMode?)) ==>
      AllFixed(AssuranceErrors(assurance, commit, claims))
  {
    if assurance.Some? && assurance.value.mode.Some? && !assurance.value.mode.value.OtherMode? {
      var a, listed := assurance.value, if claims.Some? then claims.value else [];
      RuntimeIsFixed(a);
      SubstituteIsFixed(a, commit);
      FixedFlatten(PassLists(listed), |listed|);
      FixedThree(If(a.commit != commit, OtherCommit), RuntimeErrors(a), []);
      FixedThree(If(a.commit != commit, OtherCommit), SubstituteErrors(a, commit), PassErrorsOf(listed));
    }
  }

  /** A message about claims or assurance. */
  predicate AboutClaims(b: Blocker) {
    Fixed(b) || b.ClaimState? || b.AssuranceMode?
  }

  lemma {:induction false} ClaimErrorsAreAboutClaims(claims: Option<seq<Claim>>)
    ensures forall b :: b in ClaimErrors(claims) ==> AboutClaims(b)
  {
    if claims.Some? {
      forall b | b in ClaimErrors(claims) && !Fixed(b)
        ensures b.ClaimState?
      {
        ClaimsQuoteIff(claims.value, b);
      }
    }
  }

  lemma {:induction false} AssuranceErrorsAreAboutClaims(assurance: Option<OperabilityAssurance>, commit: Option<string>, claims: Option<seq<Claim>>)
    ensures forall b :: b in AssuranceErrors(assurance, commit, claims) ==> AboutClaims(b)
  {
    AssuranceQuotesItsMode(assurance, commit, claims);
  }
}
