/**
  From receipts to a decided checklist: the collector, the record builder and the record check.
  Instants are microseconds; a timestamp that does not parse keeps its text.
 */
module ChecklistPipeline {
  import opened Basics
  import opened ChecklistParser
  import opened ChecklistRegistry

  datatype ItemState = Pass | Blocked | Pending | OtherState(text: string)

  datatype Timestamp = At(micros: int) | Unparsable(text: string)

  datatype Receipt = Receipt(
    uri: Option<string>,
    sha: Option<string>,
    commit: Option<string>,
    tag: Option<string>,
    observedAt: Option<Timestamp>)

  datatype ReceiptItem = ReceiptItem(
    id: Option<string>,
    disposition: Option<Disposition>,
    subjectRef: Option<string>,
    state: Option<ItemState>,
    reviewer: Option<string>,
    receipt: Option<Receipt>)

  datatype Payload = Payload(
    schema: Option<Schema>,
    commit: Option<string>,
    tag: Option<string>,
    items: Option<seq<Option<ReceiptItem>>>)

  datatype ResultFields = ResultFields(
    state: Option<ItemState>,
    receipt: Option<string>,
    receiptSha: Option<string>,
    observedAt: Option<Timestamp>,
    commit: Option<string>,
    tag: Option<string>,
    reviewer: Option<string>)

  datatype ResultItem = ResultItem(id: Option<string>, fields: ResultFields)

  datatype Results = Results(
    schema: Option<Schema>,
    collector: Option<Schema>,
    commit: Option<string>,
    tag: Option<string>,
    items: Option<seq<Option<ResultItem>>>)

  datatype RecordItem = RecordItem(
    id: Option<string>,
    disposition: Option<Disposition>,
    phase: Option<Phase>,
    result: Option<ResultFields>)

  datatype Summary = Summary(pass: int, blocked: int, pending: int)

  datatype Collection = NoCollection | BadCollection | Collection(schema: Option<Schema>, commit: Option<string>, tag: Option<string>)

  datatype Record = Record(
    schema: Option<Schema>,
    sourcePath: Option<string>,
    sourceSha: Option<string>,
    registrySchema: Option<Schema>,
    registrySha: Option<string>,
    itemCount: Option<int>,
    summary: Option<Summary>,
    items: Option<seq<Option<RecordItem>>>,
    collection: Collection)

  const PLACEHOLDER_MARKERS := ["artifact://checklist/", "review://checklist/", "placeholder", "example.invalid"]
  const PLACEHOLDER_REVIEWERS := ["release-maintainer", "reviewer", "placeholder", "example"]

  // ----- the contract both commands load ----------------------------------------------------------

  /** The items of a registry that covers the checklist, in checklist order. */
  ghost function RegisteredItems(contract: Contract): seq<RegistryItem>
    requires contract.registry.Some? && contract.registry.value.items.Some?
  {
    ObjectsOf(contract.registry.value.items.value)
  }

  /** Loading the checklist and its registry, or the way it ends the command. */
  ghost function LoadContract(contract: Contract): Result<seq<string>, Stop> {
    if Parsed(contract.lines).None? then Failure(Exit(ChecklistMalformed))
    else
      var ids := Ids(Parsed(contract.lines).value);
      match RegistryErrors(contract.registry, ids)
      case Failure(stop) => Failure(stop)
      case Success(errors) => if errors != [] then Failure(Exit(RegistryInvalid(errors))) else Success(ids)
  }

  /** Registered items that cover the checklist ids, each once and in order. */
  ghost predicate Covers(items: seq<RegistryItem>, default: Option<Phase>, ids: seq<string>) {
    && |items| == |ids|
    && Distinct(ids)
    && forall k :: 0 <= k < |items| ==> items[k].id == Some(ids[k]) && SoundItem(items[k], default)
  }

  /** What a loaded contract guarantees. */
  ghost predicate LoadedContract(contract: Contract, ids: seq<string>) {
    && Parsed(contract.lines).Some? && ids == Ids(Parsed(contract.lines).value)
    && RegistryErrors(contract.registry, ids) == Success([])
    && contract.registry.Some? && contract.registry.value.items.Some?
    && Covers(RegisteredItems(contract), contract.registry.value.defaultPhase, ids)
  }

  lemma {:induction false} SoundRegistryCovers(contract: Contract, ids: seq<string>)
    requires Distinct(ids) && SoundRegistry(contract.registry, ids)
    ensures Covers(RegisteredItems(contract), contract.registry.value.defaultPhase, ids)
  {
  }

  lemma {:induction false} LoadContractIsSound(contract: Contract)
    ensures LoadContract(contract).Success? ==> LoadedContract(contract, LoadContract(contract).value)
    ensures forall ids :: LoadedContract(contract, ids) ==> LoadContract(contract) == Success(ids)
  {
    if Parsed(contract.lines).Some? {
      var ids := Ids(Parsed(contract.lines).value);
      assert Distinct(ids);
      RegistryAcceptedIff(contract.registry, ids);
      if LoadContract(contract).Success? {
        SoundRegistryCovers(contract, ids);
      }
    }
  }

  method LoadChecklistContract(contract: Contract) returns (r: Result<seq<string>, Stop>)
    ensures r == LoadContract(contract)
    ensures r.Success? ==> LoadedContract(contract, r.value)
  {
    LoadContractIsSound(contract);
    var items := LoadChecklistItems(contract.lines);
    if items.Failure? {
      return Failure(Exit(ChecklistMalformed));
    }
    var errors := RegistryBlockers(contract.registry, items.value);
    if errors.Failure? {
      return Failure(errors.error);
    }
    if errors.value != [] {
      return Failure(Exit(RegistryInvalid(errors.value)));
    }
    return Success(Ids(items.value));
  }

  // ----- payloads ---------------------------------------------------------------------------------

  predicate IsHuman(item: RegistryItem) {
    item.disposition == Some(Human)
  }

  /** The ids of the registered items that are (or are not) human decisions, in order. */
  function IdsWhere(items: seq<RegistryItem>, human: bool): (r: seq<string>)
    requires forall k :: 0 <= k < |items| ==> items[k].id.Some?
    ensures forall k :: 0 <= k < |items| && IsHuman(items[k]) == human ==> items[k].id.value in r
  {
    if items == [] then []
    else
      var rest := IdsWhere(items[1..], human);
      assert forall k :: 1 <= k < |items| ==> items[k] == items[1..][k - 1];
      if IsHuman(items[0]) == human then [items[0].id.value] + rest else rest
  }

  predicate AllObjects(items: seq<Option<ReceiptItem>>) {
    forall k :: 0 <= k < |items| ==> items[k].Some?
  }

  function ReceiptIds(items: seq<Option<ReceiptItem>>): seq<Option<string>>
    requires AllObjects(items)
  {
    seq(|items|, k requires 0 <= k < |items| => items[k].value.id)
  }

  /** The item with the given id that comes last (a later dictionary entry replaces an earlier one). */
  function FindReceipt(items: seq<Option<ReceiptItem>>, id: string): Option<ReceiptItem>
    requires AllObjects(items)
  {
    if items == [] then None
    else if items[|items| - 1].value.id == Some(id) then Some(items[|items| - 1].value)
    else FindReceipt(items[..|items| - 1], id)
  }

  lemma {:induction false} FindReceiptFinds(items: seq<Option<ReceiptItem>>, id: string)
    requires AllObjects(items)
    ensures Some(id) in ReceiptIds(items) <==> FindReceipt(items, id).Some?
    ensures FindReceipt(items, id).Some? ==>
      FindReceipt(items, id) in items && FindReceipt(items, id).value.id == Some(id)
  {
    if items != [] {
      var n := |items| - 1;
      FindReceiptFinds(items[..n], id);
      assert ReceiptIds(items) == ReceiptIds(items[..n]) + [items[n].value.id];
    }
  }

  /** The checks on one payload; a success hands over its items. */
  function PayloadItems(payload: Option<Payload>, schema: Schema, source: Label,
                        expected: seq<string>, commit: string, tag: string): (r: Result<seq<Option<ReceiptItem>>, Stop>)
    ensures r.Success? ==>
      AllObjects(r.value) && forall id :: id in expected ==> Some(id) in ReceiptIds(r.value)
  {
    if payload.None? || payload.value.schema != Some(schema) then Failure(Exit(PayloadSchema(source)))
    else if payload.value.commit != Some(commit) then Failure(Exit(PayloadCommit(source)))
    else if payload.value.tag != Some(tag) then Failure(Exit(PayloadTag(source)))
    else if payload.value.items.None? then Failure(Exit(PayloadItemsNotList(source)))
    else if !AllObjects(payload.value.items.value) then Failure(Exit(PayloadItemsNotObjects(source)))
    else
      var ids := ReceiptIds(payload.value.items.value);
      var missing := MissingFrom(expected, ids);
      var unknown := UnknownIn(expected, ids);
      if HasRepeat(ids) then Failure(Exit(PayloadIdsNotUnique(source)))
      else if missing != [] || unknown != [] then Failure(Exit(PayloadCoverage(source, missing, unknown)))
      else Success(payload.value.items.value)
  }

  // ----- one collected result ---------------------------------------------------------------------

  predicate IsPlaceholderUri(uri: string) {
    exists k :: 0 <= k < |PLACEHOLDER_MARKERS| && Contains(Lower(Strip(uri)), PLACEHOLDER_MARKERS[k])
  }

  /** The decision part of a receipt: a human pass with a real reviewer, or an eligible state. */
  function StateFault(item: ReceiptItem, human: bool, phase: Option<Phase>, id: string): Option<ExitReason> {
    if human then
      if item.state != Some(Pass) then Some(HumanNotPassed(id))
      else if item.reviewer.None? || Strip(item.reviewer.value) == "" then Some(ReviewerMissing(id))
      else if Lower(Strip(item.reviewer.value)) in PLACEHOLDER_REVIEWERS then Some(ReviewerPlaceholder(id))
      else None
    else if item.state != Some(Pass) && !(PendingPhase(phase) && item.state == Some(Pending))
    then Some(ReceiptNotEligible(id))
    else None
  }

  function ReceiptFault(receipt: Option<Receipt>, commit: string, tag: string, now: Timestamp, id: string): Option<ExitReason> {
    if receipt.None? then Some(ReceiptMissing(id))
    else
      var r := receipt.value;
      if r.uri.None? || Strip(r.uri.value) == "" then Some(ReceiptUriMissing(id))
      else if IsPlaceholderUri(r.uri.value) then Some(ReceiptUriPlaceholder(id))
      else if r.sha.None? || !IsLowerHex(r.sha.value, 64) then Some(ReceiptBadSha(id))
      else if r.commit != Some(commit) then Some(ReceiptOtherCommit(id))
      else if r.tag != Some(tag) then Some(ReceiptOtherTag(id))
      else if r.observedAt.None? then Some(ReceiptTimeMissing(id))
      else if r.observedAt.value.Unparsable? || now.Unparsable? then Some(ReceiptTimeBad(id))
      else if r.observedAt.value.micros > now.micros then Some(ReceiptFromFuture(id))
      else None
  }

  function CollectOne(item: ReceiptItem, registered: RegistryItem, default: Option<Phase>,
                      commit: string, tag: string, now: Timestamp): Result<ResultItem, Stop>
    requires registered.id.Some? && registered.subject.Some?
  {
    var id := registered.id.value;
    if item.disposition != registered.disposition then Failure(Exit(ReceiptDisposition(id)))
    else if item.subjectRef != registered.subject.value.ref then Failure(Exit(ReceiptSubject(id)))
    else
      var state := StateFault(item, IsHuman(registered), PhaseOf(registered, default), id);
      var receipt := ReceiptFault(item.receipt, commit, tag, now, id);
      if state.Some? then Failure(Exit(state.value))
      else if receipt.Some? then Failure(Exit(receipt.value))
      else
        var r := item.receipt.value;
        Success(ResultItem(Some(id), ResultFields(
          item.state, Some(Strip(r.uri.value)), r.sha, r.observedAt, Some(commit), Some(tag),
          if IsHuman(registered) then Some(Strip(item.reviewer.value)) else None)))
  }

  /** A collected result names its registered item and is fit for the release. */
  ghost predicate Eligible(result: ResultItem, registered: RegistryItem, default: Option<Phase>, commit: string, tag: string) {
    var f := result.fields;
    && result.id == registered.id
    && (f.state == Some(Pass) || (f.state == Some(Pending) && PendingPhase(PhaseOf(registered, default))))
    && Given(f.receipt)
    && f.receiptSha.Some? && IsLowerHex(f.receiptSha.value, 64)
    && f.observedAt.Some? && f.observedAt.value.At?
    && f.commit == Some(commit) && f.tag == Some(tag)
    && (IsHuman(registered) ==> f.state == Some(Pass) && Given(f.reviewer))
    && (!IsHuman(registered) ==> f.reviewer == None)
  }

  lemma {:induction false} CollectedIsEligible(item: ReceiptItem, registered: RegistryItem, default: Option<Phase>,
                            commit: string, tag: string, now: Timestamp)
    requires registered.id.Some? && registered.subject.Some?
    requires CollectOne(item, registered, default, commit, tag, now).Success?
    ensures Eligible(CollectOne(item, registered, default, commit, tag, now).value, registered, default, commit, tag)
  {
  }

  // ----- collecting every result ------------------------------------------------------------------

  /** The receipt of a registered item, from the payload its disposition selects. */
  function SourceOf(registered: RegistryItem, receipts: seq<Option<ReceiptItem>>, humans: seq<Option<ReceiptItem>>): Option<ReceiptItem>
    requires registered.id.Some? && AllObjects(receipts) && AllObjects(humans)
  {
    FindReceipt(if IsHuman(registered) then humans else receipts, registered.id.value)
  }

  predicate Usable(items: seq<RegistryItem>, receipts: seq<Option<ReceiptItem>>, humans: seq<Option<ReceiptItem>>) {
    && AllObjects(receipts) && AllObjects(humans)
    && forall k :: 0 <= k < |items| ==>
         items[k].id.Some? && items[k].subject.Some? && SourceOf(items[k], receipts, humans).Some?
  }

  /** The instant that each receipt is compared with: the given one, or a reading of the clock for each. */
  type Readings = nat -> Timestamp

  function CollectUpTo(items: seq<RegistryItem>, receipts: seq<Option<ReceiptItem>>, humans: seq<Option<ReceiptItem>>,
                       default: Option<Phase>, commit: string, tag: string, now: Readings, n: nat): (r: Result<seq<ResultItem>, Stop>)
    requires n <= |items| && Usable(items, receipts, humans)
    ensures r.Success? ==> |r.value| == n
  {
    if n == 0 then Success([])
    else
      match CollectUpTo(items, receipts, humans, default, commit, tag, now, n - 1)
      case Failure(stop) => Failure(stop)
      case Success(done) =>
        match CollectOne(SourceOf(items[n - 1], receipts, humans).value, items[n - 1], default, commit, tag, now(n - 1))
        case Failure(stop) => Failure(stop)
        case Success(result) => Success(done + [result])
  }

  lemma {:induction false} CollectedAreEligible(items: seq<RegistryItem>, receipts: seq<Option<ReceiptItem>>, humans: seq<Option<ReceiptItem>>,
                            default: Option<Phase>, commit: string, tag: string, now: Readings, n: nat)
    requires n <= |items| && Usable(items, receipts, humans)
    requires CollectUpTo(items, receipts, humans, default, commit, tag, now, n).Success?
    ensures forall k :: 0 <= k < n ==>
      Eligible(CollectUpTo(items, receipts, humans, default, commit, tag, now, n).value[k], items[k], default, commit, tag)
  {
    if n > 0 {
      CollectedAreEligible(items, receipts, humans, default, commit, tag, now, n - 1);
      CollectedIsEligible(SourceOf(items[n - 1], receipts, humans).value, items[n - 1], default, commit, tag, now(n - 1));
    }
  }

  function Entries<T>(items: seq<T>): (r: seq<Option<T>>)
    ensures |r| == |items|
    ensures forall k :: 0 <= k < |r| ==> r[k] == Some(items[k])
  {
    seq(|items|, k requires 0 <= k < |items| => Some(items[k]))
  }

  function CollectedResults(collected: seq<ResultItem>, commit: string, tag: string): Results {
    Results(Some(ResultsV2), Some(CollectorV1), Some(commit), Some(tag), Some(Entries(collected)))
  }

  lemma {:induction false} PayloadsAreUsable(items: seq<RegistryItem>, receipts: seq<Option<ReceiptItem>>, humans: seq<Option<ReceiptItem>>)
    requires AllObjects(receipts) && AllObjects(humans)
    requires forall k :: 0 <= k < |items| ==> items[k].id.Some? && items[k].subject.Some?
    requires forall id :: id in IdsWhere(items, false) ==> Some(id) in ReceiptIds(receipts)
    requires forall id :: id in IdsWhere(items, true) ==> Some(id) in ReceiptIds(humans)
    ensures Usable(items, receipts, humans)
  {
    forall k | 0 <= k < |items|
      ensures SourceOf(items[k], receipts, humans).Some?
    {
      var id := items[k].id.value;
      assert id in IdsWhere(items, IsHuman(items[k]));
      FindReceiptFinds(if IsHuman(items[k]) then humans else receipts, id);
    }
  }

  /** collect_checklist_results, as a function of what it reads. */
  ghost function Collect(receiptIndex: Option<Payload>, humanResults: Option<Payload>, commit: string, tag: string,
                         contract: Contract, now: Readings): Result<Results, Stop>
  {
    if !IsLowerHex(commit, 40) then Failure(Exit(BadCommit))
    else if !("v" <= tag) then Failure(Exit(BadTag))
    else
      match LoadContract(contract)
      case Failure(stop) => Failure(stop)
      case Success(ids) =>
        LoadContractIsSound(contract);
        var items := RegisteredItems(contract);
        match PayloadItems(receiptIndex, ReceiptIndexV1, ReceiptIndex, IdsWhere(items, false), commit, tag)
        case Failure(stop) => Failure(stop)
        case Success(receipts) =>
          match PayloadItems(humanResults, HumanResultsV1, HumanResults, IdsWhere(items, true), commit, tag)
          case Failure(stop) => Failure(stop)
          case Success(humans) =>
            PayloadsAreUsable(items, receipts, humans);
            match CollectUpTo(items, receipts, humans, contract.registry.value.defaultPhase, commit, tag, now, |items|)
            case Failure(stop) => Failure(stop)
            case Success(collected) =>
              Success(CollectedResults(collected, commit, tag))
  }

  method CollectLoop(items: seq<RegistryItem>, receipts: seq<Option<ReceiptItem>>, humans: seq<Option<ReceiptItem>>,
                     default: Option<Phase>, commit: string, tag: string, now: Readings) returns (r: Result<seq<ResultItem>, Stop>)
    requires Usable(items, receipts, humans)
    ensures r == CollectUpTo(items, receipts, humans, default, commit, tag, now, |items|)
  {
    var collected: seq<ResultItem> := [];
    var n := 0;
    while n < |items|
      invariant n <= |items|
      invariant CollectUpTo(items, receipts, humans, default, commit, tag, now, n) == Success(collected)
    {
      var one := CollectOne(SourceOf(items[n], receipts, humans).value, items[n], default, commit, tag, now(n));
      if one.Failure? {
        StoppedCollection(items, receipts, humans, default, commit, tag, now, n + 1, |items|);
        return Failure(one.error);
      }
      collected := collected + [one.value];
      n := n + 1;
    }
    return Success(collected);
  }

  /** The first unusable receipt decides how the collection ends. */
  lemma {:induction false} StoppedCollection(items: seq<RegistryItem>, receipts: seq<Option<ReceiptItem>>, humans: seq<Option<ReceiptItem>>,
                          default: Option<Phase>, commit: string, tag: string, now: Readings, m: nat, n: nat)
    requires m <= n <= |items| && Usable(items, receipts, humans)
    requires CollectUpTo(items, receipts, humans, default, commit, tag, now, m).Failure?
    ensures CollectUpTo(items, receipts, humans, default, commit, tag, now, n)
         == CollectUpTo(items, receipts, humans, default, commit, tag, now, m)
  {
    if m < n {
      StoppedCollection(items, receipts, humans, default, commit, tag, now, m, n - 1);
    }
  }
}
