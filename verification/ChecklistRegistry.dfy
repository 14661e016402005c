/**
  JSON documents of the release checklist, the blockers they can raise, and the registry check.

  An optional field is None when the key is missing or holds a value of another JSON type.
 */
module ChecklistRegistry {
  import opened Basics
  import opened ChecklistParser

  // ----- decoded documents ------------------------------------------------------------------------

  datatype Schema =
    | RegistryV2 | ResultsV2 | ReceiptIndexV1 | HumanResultsV1 | CollectorV1 | OtherSchema(text: string)

  datatype Phase = PrePublish | PublishBoundary | PostPublish | OtherPhase(text: string)

  datatype Disposition = Machine | Evidence | Human | OtherDisposition(text: string)

  datatype SubjectKind = CommandSubject | LaneSubject | EvidenceSubject | HumanSubject | OtherSubject(text: string)

  datatype Subject = Subject(
    kind: Option<SubjectKind>,
    ref: Option<string>,
    available: Option<bool>,
    unavailableReason: Option<string>)

  datatype RegistryItem = RegistryItem(
    id: Option<string>,
    disposition: Option<Disposition>,
    subject: Option<Subject>,
    why: Option<string>,
    phase: Option<Phase>)          // None: no such key; any other value, null included, is OtherPhase

  /** An entry of a JSON list is None when it is not an object. */
  datatype Registry = Registry(
    schema: Option<Schema>,
    checklistPath: Option<string>,
    defaultPhase: Option<Phase>,
    items: Option<seq<Option<RegistryItem>>>)

  /** The two contract files as read from disk; the registry is None when it is not an object. */
  datatype Contract = Contract(
    lines: seq<string>,
    checklistSha: string,
    registry: Option<Registry>,
    registrySha: string)

  const CHECKLIST_PATH := "docs/release-checklist.md"

  // ----- blockers ---------------------------------------------------------------------------------

  /** A rejection reason.  Text fields are the parts a document contributes to the message. */
  datatype Blocker =
    // registry
    | RegistryNotObject | RegistrySchema | RegistryPath | RegistryDefaultPhase | RegistryItemsNotList
    | RegistryIdsNotUnique | RegistryMissingIds(ids: seq<string>) | RegistryUnknownIds(ids: seq<string>)
    | RegistryOrder | RegistryItemNotObject(index: nat) | RegistryDisposition(index: nat, text: string)
    | RegistrySubject(index: nat) | RegistrySubjectKind(index: nat) | RegistrySubjectRef(index: nat)
    | RegistryAvailability(index: nat) | RegistryReason(index: nat) | RegistryWhy(index: nat)
    | RegistryPhase(index: nat, text: string)
    // checklist record
    | ResultsMissing | ResultsSchema | SourcePath | RecordRegistrySchema | ContractUnreadable
    | SourceHash | RegistryHash | CollectionNotObject | CollectionSchema | CollectionCommit | CollectionTag
    | ItemsNotList | ItemCount | ItemIdsNotUnique | ItemMissingIds(ids: seq<string>)
    | ItemUnknownIds(ids: seq<string>) | ItemOrder | ItemNotObject(index: nat) | ItemDisposition(index: nat)
    | ItemPhase(index: nat) | ItemResult(index: nat) | ItemUnknownState(index: nat, text: string)
    | ItemReceipt(index: nat) | ItemReceiptSha(index: nat) | ItemCommit(index: nat) | ItemTag(index: nat)
    | ItemObservedMissing(index: nat) | ItemObservedBad(index: nat, text: string) | ItemReviewer(index: nat)
    | SubjectUnavailable(id: string, text: string) | ResultBlocks(id: string, text: string) | SummaryMismatch
    // manifest
    | ManifestField(field: string) | ManifestFuture | ManifestStale | ManifestTimeBad(text: string)
    | PrivacyNotShareable | RedactionNotShareable | DecisionState(text: string)
    // claims and operability assurance
    | ClaimsNotList | ClaimsEmpty | ClaimState(index: nat, text: string) | ClaimEvidence(index: nat) | ClaimReason(index: nat)
    | ClaimStage(index: nat, stage: Stage) | ClaimKey(index: nat, stage: Stage, part: StageKey)
    | ClaimSha(index: nat, stage: Stage) | ClaimDate(index: nat, stage: Stage)
    | AssuranceMissing | AssuranceMode(text: string) | Assurance(lack: AssuranceFault) | DeferredPass(tcc: bool)
    // benchmark report and evidence artifacts
    | ReportMissing | ReportSchema | ReportTimeMissing | ReportFuture | ReportStale | ReportTimeBad(text: string)
    | ReportEmpty | ResultNotObject(index: nat) | ResultPrivacy(caseId: string, text: string)
    | ResultPassFault(caseId: string, fault: PassFault) | ResultOutcome(caseId: string, text: string)
    | ArtifactsNotList | ArtifactsEmpty | ArtifactMissing(index: nat, key: ArtifactKey) | ArtifactSha(index: nat)
    | ArtifactPrivacy(index: nat) | ArtifactRedaction(index: nat) | ArtifactNotSanitized(index: nat)

  datatype Stage = InitialStage | PivotStage | CurrentStage

  datatype StageKey = StageSha | StageDate | StagePath | StageSummary

  datatype CiName = AutomaticChecks | ReleaseSmoke | IntegrityGates

  datatype AssuranceFault =
    | OtherCommit | RuntimeScope | RuntimeMissing | RuntimeState | RuntimeReference | RuntimeDefers
    | SubstituteScope | CiMissing(name: CiName) | CiHead(name: CiName) | CiConclusion(name: CiName)
    | CiWorkflow(name: CiName) | CiUrl(name: CiName) | CheckCount | Platforms | PlatformsNotUnique
    | DeferredNotList | DeferredIds | DeferredNotUnique | DeferredState

  datatype PassFault = StaleEvidence | NoEvidencePaths | NoEvidenceArtifacts | DispatchOnly | CommandAcceptedOnly

  datatype ArtifactKey = IdKey | PathKey | ShaKey | PrivacyKey | RedactionKey | SanitizedKey

  /** Why a command stops without a result: SystemExit, or an exception nothing catches. */
  datatype Stop = Exit(reason: ExitReason) | Crash

  datatype Label = ReceiptIndex | HumanResults

  datatype ExitReason =
    | BadCommit | BadTag | ChecklistMalformed | RegistryInvalid(errors: seq<Blocker>)
    | PayloadSchema(source: Label) | PayloadCommit(source: Label) | PayloadTag(source: Label)
    | PayloadItemsNotList(source: Label) | PayloadItemsNotObjects(source: Label) | PayloadIdsNotUnique(source: Label)
    | PayloadCoverage(source: Label, missing: seq<string>, unknown: seq<Option<string>>)
    | ReceiptDisposition(id: string) | ReceiptSubject(id: string) | HumanNotPassed(id: string)
    | ReviewerMissing(id: string) | ReviewerPlaceholder(id: string) | ReceiptNotEligible(id: string)
    | ReceiptMissing(id: string) | ReceiptUriMissing(id: string) | ReceiptUriPlaceholder(id: string)
    | ReceiptBadSha(id: string) | ReceiptOtherCommit(id: string) | ReceiptOtherTag(id: string)
    | ReceiptTimeMissing(id: string) | ReceiptTimeBad(id: string) | ReceiptFromFuture(id: string)
    | WrongResultsSchema | WrongCollector | CollectionUnbound | CollectedOtherCommit | CollectedOtherTag
    | ResultsNotList | ResultIdsNotUnique | ResultsDoNotCover | ResultState(id: string)
    | ResultReceipt(id: string) | ResultReviewer(id: string)

  // ----- small readers ----------------------------------------------------------------------------

  /** Python truth of an optional string. */
  predicate Given(s: Option<string>) {
    s.Some? && s.value != ""
  }

  predicate KnownPhase(p: Option<Phase>) {
    p.Some? && !p.value.OtherPhase?
  }

  predicate PendingPhase(p: Option<Phase>) {
    p == Some(PublishBoundary) || p == Some(PostPublish)
  }

  /** item.get("phase", default_phase) */
  function PhaseOf(item: RegistryItem, default: Option<Phase>): Option<Phase> {
    if item.phase.Some? then item.phase else default
  }

  function PhaseText(p: Option<Phase>): string {
    match p
    case Some(OtherPhase(text)) => text
    case Some(PrePublish) => "pre_publish"
    case Some(PublishBoundary) => "publish_boundary"
    case Some(PostPublish) => "post_publish"
    case None => "None"
  }

  function DispositionText(d: Option<Disposition>): string {
    match d
    case Some(OtherDisposition(text)) => text
    case Some(Machine) => "machine"
    case Some(Evidence) => "evidence"
    case Some(Human) => "human"
    case None => "None"
  }

  predicate KindAllowed(d: Disposition, k: Option<SubjectKind>) {
    match d
    case Machine => k == Some(CommandSubject) || k == Some(LaneSubject)
    case Evidence => k == Some(CommandSubject) || k == Some(EvidenceSubject) || k == Some(LaneSubject)
    case Human => k == Some(HumanSubject)
    case OtherDisposition(_) => false
  }

  // ----- the id comparison shared by registry, results and record ---------------------------------

  function Known(ids: seq<string>): (r: seq<Option<string>>)
    ensures |r| == |ids|
    ensures forall k :: 0 <= k < |r| ==> r[k] == Some(ids[k])
  {
    seq(|ids|, k requires 0 <= k < |ids| => Some(ids[k]))
  }

  function Named(ids: seq<Option<string>>): seq<string>
    requires forall k :: 0 <= k < |ids| ==> ids[k].Some?
  {
    seq(|ids|, k requires 0 <= k < |ids| => ids[k].value)
  }

  /** The ids of `expected` that `actual` lacks. */
  function MissingFrom(expected: seq<string>, actual: seq<Option<string>>): (r: seq<string>)
    ensures forall x :: x in r <==> x in expected && Some(x) !in actual
  {
    if expected == [] then []
    else
      var rest := MissingFrom(expected[1..], actual);
      assert expected == [expected[0]] + expected[1..];
      if Some(expected[0]) in actual then rest else [expected[0]] + rest
  }

  function UnknownIn(expected: seq<string>, actual: seq<Option<string>>): seq<Option<string>> {
    Without(actual, Known(expected))
  }

  // ----- the registry check -----------------------------------------------------------------------

  function ObjectsOf(items: seq<Option<RegistryItem>>): (r: seq<RegistryItem>)
    ensures |r| <= |items|
    ensures (forall k :: 0 <= k < |items| ==> items[k].Some?) ==>
      |r| == |items| && forall k :: 0 <= k < |items| ==> r[k] == items[k].value
  {
    if items == [] then []
    else
      var rest := ObjectsOf(items[1..]);
      if items[0].Some? then [items[0].value] + rest else rest
  }

  function RegistryIds(items: seq<Option<RegistryItem>>): (r: seq<Option<string>>)
    ensures |r| == |ObjectsOf(items)|
    ensures forall k :: 0 <= k < |r| ==> r[k] == ObjectsOf(items)[k].id
  {
    var objects := ObjectsOf(items);
    seq(|objects|, k requires 0 <= k < |objects| => objects[k].id)
  }

  function HeaderErrors(r: Registry): seq<Blocker> {
      (if r.schema != Some(RegistryV2) then [RegistrySchema] else [])
    + (if r.checklistPath != Some(CHECKLIST_PATH) then [RegistryPath] else [])
    + (if !KnownPhase(r.defaultPhase) then [RegistryDefaultPhase] else [])
  }

  /** Joining an id that is not a string raises, so such ids end the run. */
  function RegistryIdErrors(expected: seq<string>, actual: seq<Option<string>>): Result<seq<Blocker>, Stop> {
    var repeats := if HasRepeat(actual) then [RegistryIdsNotUnique] else [];
    if actual == Known(expected) then Success(repeats)
    else
      var missing := MissingFrom(expected, actual);
      var unknown := UnknownIn(expected, actual);
      if exists k :: 0 <= k < |unknown| && unknown[k].None? then Failure(Crash)
      else Success(repeats
        + (if missing != [] then [RegistryMissingIds(missing)] else [])
        + (if unknown != [] then [RegistryUnknownIds(Named(unknown))] else [])
        + (if missing == [] && unknown == [] then [RegistryOrder] else []))
  }

  function SubjectErrors(i: nat, d: Disposition, s: Subject): seq<Blocker> {
      (if !KindAllowed(d, s.kind) then [RegistrySubjectKind(i)] else [])
    + (if !Given(s.ref) then [RegistrySubjectRef(i)] else [])
    + (if s.available.None? then [RegistryAvailability(i)]
       else if s.available == Some(false) && !Given(s.unavailableReason) then [RegistryReason(i)] else [])
  }

  function RegistryItemErrors(i: nat, entry: Option<RegistryItem>, default: Option<Phase>): seq<Blocker> {
    if entry.None? then [RegistryItemNotObject(i)]
    else
      var item := entry.value;
      if item.disposition.None? || item.disposition.value.OtherDisposition? then
        [RegistryDisposition(i, DispositionText(item.disposition))]
      else if item.subject.None? then [RegistrySubject(i)]
      else
        var phase := PhaseOf(item, default);
        SubjectErrors(i, item.disposition.value, item.subject.value)
        + (if item.disposition == Some(Human) && !Given(item.why) then [RegistryWhy(i)] else [])
        + (if !KnownPhase(phase) then [RegistryPhase(i, PhaseText(phase))] else [])
  }

  /** The errors of every entry. */
  function RegistryErrorLists(items: seq<Option<RegistryItem>>, default: Option<Phase>): (r: seq<seq<Blocker>>)
    ensures |r| == |items|
    ensures forall k :: 0 <= k < |r| ==> r[k] == RegistryItemErrors(k, items[k], default)
  {
    seq(|items|, k requires 0 <= k < |items| => RegistryItemErrors(k, items[k], default))
  }

  function RegistryErrors(registry: Option<Registry>, expected: seq<string>): Result<seq<Blocker>, Stop> {
    if registry.None? then Success([RegistryNotObject])
    else
      var r := registry.value;
      if r.items.None? then Success(HeaderErrors(r) + [RegistryItemsNotList])
      else
        match RegistryIdErrors(expected, RegistryIds(r.items.value))
        case Failure(stop) => Failure(stop)
        case Success(idErrors) =>
          Success(HeaderErrors(r) + idErrors + Flatten(RegistryErrorLists(r.items.value, r.defaultPhase), |r.items.value|))
  }

  method RegistryBlockers(registry: Option<Registry>, checklist: seq<ChecklistItem>)
    returns (r: Result<seq<Blocker>, Stop>)
    ensures r == RegistryErrors(registry, Ids(checklist))
    ensures Distinct(Ids(checklist)) ==> (r == Success([]) <==> SoundRegistry(registry, Ids(checklist)))
  {
    if Distinct(Ids(checklist)) {
      RegistryAcceptedIff(registry, Ids(checklist));
    }
    if registry.None? {
      return Success([RegistryNotObject]);
    }
    var errors := HeaderErrors(registry.value);
    if registry.value.items.None? {
      return Success(errors + [RegistryItemsNotList]);
    }
    var items := registry.value.items.value;
    var idErrors := RegistryIdErrors(Ids(checklist), RegistryIds(items));
    if idErrors.Failure? {
      return idErrors;
    }
    var itemErrors := RegistryItemBlockers(items, registry.value.defaultPhase);
    return Success(errors + idErrors.value + itemErrors);
  }

  method RegistryItemBlockers(items: seq<Option<RegistryItem>>, default: Option<Phase>)
    returns (errors: seq<Blocker>)
    ensures errors == Flatten(RegistryErrorLists(items, default), |items|)
  {
    errors := JoinLists(items, (index, item) => RegistryItemErrors(index, item, default), RegistryErrorLists(items, default));
  }

  // ----- what an accepted registry is -------------------------------------------------------------

  /** One item a release can be decided on. */
  ghost predicate SoundItem(item: RegistryItem, default: Option<Phase>) {
    && item.disposition.Some? && !item.disposition.value.OtherDisposition?
    && item.subject.Some?
    && KindAllowed(item.disposition.value, item.subject.value.kind)
    && Given(item.subject.value.ref)
    && item.subject.value.available.Some?
    && (item.subject.value.available == Some(false) ==> Given(item.subject.value.unavailableReason))
    && (item.disposition == Some(Human) ==> Given(item.why))
    && KnownPhase(PhaseOf(item, default))
  }

  /** A registry that covers the checklist: one sound item per checklist id, in checklist order. */
  ghost predicate SoundRegistry(registry: Option<Registry>, ids: seq<string>) {
    && registry.Some?
    && registry.value.schema == Some(RegistryV2)
    && registry.value.checklistPath == Some(CHECKLIST_PATH)
    && KnownPhase(registry.value.defaultPhase)
    && registry.value.items.Some?
    && |registry.value.items.value| == |ids|
    && forall k :: 0 <= k < |ids| ==>
         && registry.value.items.value[k].Some?
         && registry.value.items.value[k].value.id == Some(ids[k])
         && SoundItem(registry.value.items.value[k].value, registry.value.defaultPhase)
  }

  lemma {:induction false} SoundItemIff(i: nat, entry: Option<RegistryItem>, default: Option<Phase>)
    ensures RegistryItemErrors(i, entry, default) == [] <==> entry.Some? && SoundItem(entry.value, default)
  {
  }

  lemma {:induction false} NoItemErrorsIff(items: seq<Option<RegistryItem>>, default: Option<Phase>)
    ensures Flatten(RegistryErrorLists(items, default), |items|) == [] <==>
      forall k :: 0 <= k < |items| ==> items[k].Some? && SoundItem(items[k].value, default)
  {
    FlattenEmptyIff(RegistryErrorLists(items, default), |items|);
    forall k | 0 <= k < |items|
      ensures RegistryErrorLists(items, default)[k] == [] <==> items[k].Some? && SoundItem(items[k].value, default)
    {
      SoundItemIff(k, items[k], default);
    }
  }

  lemma {:induction false} NoIdErrorsIff(expected: seq<string>, actual: seq<Option<string>>)
    requires Distinct(expected)
    ensures RegistryIdErrors(expected, actual) == Success([]) <==> actual == Known(expected)
  {
    if actual == Known(expected) {
      assert !HasRepeat(actual);
    }
  }

  /** The registry check accepts exactly the registries that cover a checklist with distinct ids. */
  lemma {:induction false} RegistryAcceptedIff(registry: Option<Registry>, ids: seq<string>)
    requires Distinct(ids)
    ensures RegistryErrors(registry, ids) == Success([]) <==> SoundRegistry(registry, ids)
  {
    if registry.Some? && registry.value.items.Some? {
      var items := registry.value.items.value;
      NoIdErrorsIff(ids, RegistryIds(items));
      NoItemErrorsIff(items, registry.value.defaultPhase);
      IdsInOrderIff(items, ids);
      JoinedErrors(registry.value, ids);
    }
  }

  lemma {:induction false} JoinedErrors(r: Registry, ids: seq<string>)
    requires r.items.Some?
    ensures RegistryErrors(Some(r), ids) == Success([]) <==>
      && HeaderErrors(r) == [] && RegistryIdErrors(ids, RegistryIds(r.items.value)) == Success([])
      && Flatten(RegistryErrorLists(r.items.value, r.defaultPhase), |r.items.value|) == []
  {
    if RegistryIdErrors(ids, RegistryIds(r.items.value)).Success? {
      var a, b := HeaderErrors(r), RegistryIdErrors(ids, RegistryIds(r.items.value)).value;
      var c := Flatten(RegistryErrorLists(r.items.value, r.defaultPhase), |r.items.value|);
      assert |a + b + c| == |a| + |b| + |c|;
    }
  }

  lemma {:induction false} IdsInOrderIff(items: seq<Option<RegistryItem>>, ids: seq<string>)
    ensures (forall k :: 0 <= k < |items| ==> items[k].Some?) ==>
      (RegistryIds(items) == Known(ids) <==>
        |items| == |ids| && forall k :: 0 <= k < |ids| ==> items[k].value.id == Some(ids[k]))
  {
  }

  /** A phase that is present but null is not the default phase: the registry is rejected. */
  lemma {:induction false} NullPhaseIsRejected(registry: Option<Registry>, ids: seq<string>, k: nat)
    requires Distinct(ids) && registry.Some? && registry.value.items.Some? && k < |registry.value.items.value|
    requires registry.value.items.value[k].Some? && registry.value.items.value[k].value.phase == Some(OtherPhase("None"))
    ensures RegistryErrors(registry, ids) != Success([])
  {
    RegistryAcceptedIff(registry, ids);
  }
}
