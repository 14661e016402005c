/**
  The checklist record of a manifest: how it is built from results and how it is checked again.
 */
module ChecklistRecord {
  import opened Basics
  import opened ChecklistParser
  import opened ChecklistRegistry
  import opened ChecklistPipeline

  // ----- registry lookup --------------------------------------------------------------------------

  /** The registered item with the given id; a later entry replaces an earlier one. */
  function FindItem(items: seq<RegistryItem>, id: Option<string>): Option<RegistryItem> {
    if items == [] || id.None? then None
    else if items[|items| - 1].id == id then Some(items[|items| - 1])
    else FindItem(items[..|items| - 1], id)
  }

  lemma {:induction false} FindItemAt(items: seq<RegistryItem>, k: nat)
    requires k < |items| && items[k].id.Some?
    requires forall i, j :: 0 <= i < j < |items| ==> items[i].id != items[j].id
    ensures FindItem(items, items[k].id) == Some(items[k])
  {
    if k < |items| - 1 {
      var shorter := items[..|items| - 1];
      assert shorter[k] == items[k];
      FindItemAt(shorter, k);
    }
  }

  lemma {:induction false} CoveredLookup(items: seq<RegistryItem>, default: Option<Phase>, ids: seq<string>, k: nat)
    requires Covers(items, default, ids) && k < |ids|
    ensures FindItem(items, Some(ids[k])) == Some(items[k])
  {
    FindItemAt(items, k);
  }

  // ----- building the record ----------------------------------------------------------------------

  function Keep(s: Option<string>): Option<string> {
    if Given(s) then s else None
  }

  predicate AllowedState(state: Option<ItemState>, phase: Option<Phase>) {
    state == Some(Pass) || state == Some(Blocked) || (state == Some(Pending) && PendingPhase(phase))
  }

  /** One result joined with its registered item; indexing a non-object or an unknown id raises. */
  function BuildOne(entry: Option<ResultItem>, items: seq<RegistryItem>, default: Option<Phase>): Result<RecordItem, Stop> {
    if entry.None? || entry.value.id.None? || FindItem(items, entry.value.id).None? then Failure(Crash)
    else
      var id := entry.value.id.value;
      var f := entry.value.fields;
      var registered := FindItem(items, entry.value.id).value;
      var phase := PhaseOf(registered, default);
      if !AllowedState(f.state, phase) then Failure(Exit(ResultState(id)))
      else if !Given(f.receipt) then Failure(Exit(ResultReceipt(id)))
      else if IsHuman(registered) && f.state == Some(Pass) && !Given(f.reviewer) then Failure(Exit(ResultReviewer(id)))
      else Success(RecordItem(Some(id), registered.disposition, phase, Some(f.(reviewer := Keep(f.reviewer)))))
  }

  function BuildUpTo(entries: seq<Option<ResultItem>>, items: seq<RegistryItem>, default: Option<Phase>, n: nat): (r: Result<seq<RecordItem>, Stop>)
    requires n <= |entries|
    ensures r.Success? ==> |r.value| == n
    ensures r.Success? ==> forall k :: 0 <= k < n ==> BuildOne(entries[k], items, default) == Success(r.value[k])
  {
    if n == 0 then Success([])
    else
      match BuildUpTo(entries, items, default, n - 1)
      case Failure(stop) => Failure(stop)
      case Success(done) =>
        match BuildOne(entries[n - 1], items, default)
        case Failure(stop) => Failure(stop)
        case Success(one) => Success(done + [one])
  }

  lemma {:induction false} StoppedBuild(entries: seq<Option<ResultItem>>, items: seq<RegistryItem>, default: Option<Phase>, m: nat, n: nat)
    requires m <= n <= |entries| && BuildUpTo(entries, items, default, m).Failure?
    ensures BuildUpTo(entries, items, default, n) == BuildUpTo(entries, items, default, m)
  {
    if m < n {
      StoppedBuild(entries, items, default, m, n - 1);
    }
  }

  lemma {:induction false} BuildSucceeds(entries: seq<Option<ResultItem>>, items: seq<RegistryItem>, default: Option<Phase>, n: nat)
    requires n <= |entries|
    requires forall k :: 0 <= k < n ==> BuildOne(entries[k], items, default).Success?
    ensures BuildUpTo(entries, items, default, n).Success?
  {
    if n > 0 {
      BuildSucceeds(entries, items, default, n - 1);
    }
  }

  /** The recorded state of every item. */
  function StatesOf(items: seq<RecordItem>): (r: seq<Option<ItemState>>)
    ensures |r| == |items|
    ensures forall k :: 0 <= k < |r| ==> r[k] == if items[k].result.Some? then items[k].result.value.state else None
  {
    seq(|items|, k requires 0 <= k < |items| => if items[k].result.Some? then items[k].result.value.state else None)
  }

  function CountState(counts: Summary, state: Option<ItemState>): Summary {
    if state == Some(Pass) then counts.(pass := counts.pass + 1)
    else if state == Some(Blocked) then counts.(blocked := counts.blocked + 1)
    else if state == Some(Pending) then counts.(pending := counts.pending + 1)
    else counts
  }

  /** How many of the first n states are pass, blocked and pending. */
  function SummaryUpTo(states: seq<Option<ItemState>>, n: nat): Summary
    requires n <= |states|
  {
    if n == 0 then Summary(0, 0, 0) else CountState(SummaryUpTo(states, n - 1), states[n - 1])
  }

  function Summarize(states: seq<Option<ItemState>>): Summary {
    SummaryUpTo(states, |states|)
  }

  /** The three counters are the numbers of occurrences. */
  lemma {:induction false} SummaryCounts(states: seq<Option<ItemState>>, n: nat)
    requires n <= |states|
    ensures SummaryUpTo(states, n)
         == Summary(Count(states, Some(Pass), n), Count(states, Some(Blocked), n), Count(states, Some(Pending), n))
  {
    if n > 0 {
      SummaryCounts(states, n - 1);
      assert states[n - 1] == Some(Pass) || states[n - 1] == Some(Blocked) || states[n - 1] == Some(Pending)
        || (states[n - 1] != Some(Pass) && states[n - 1] != Some(Blocked) && states[n - 1] != Some(Pending));
    }
  }

  function ResultIds(entries: seq<Option<ResultItem>>): (r: seq<Option<string>>)
    ensures (forall k :: 0 <= k < |entries| ==> entries[k].Some?) ==>
      |r| == |entries| && forall k :: 0 <= k < |entries| ==> r[k] == entries[k].value.id
  {
    if entries == [] then []
    else
      var rest := ResultIds(entries[1..]);
      if entries[0].Some? then [entries[0].value.id] + rest else rest
  }

  /** The header checks; a collected result must be bound to the manifest's commit and tag. */
  function HeaderFault(results: Option<Results>, commit: Option<string>, tag: Option<string>): Option<Stop> {
    if results.None? || results.value.schema != Some(ResultsV2) then Some(Exit(WrongResultsSchema))
    else if results.value.collector.Some? && results.value.collector != Some(CollectorV1) then Some(Exit(WrongCollector))
    else if results.value.collector.Some? && (commit.None? || tag.None?) then Some(Exit(CollectionUnbound))
    else if results.value.collector.Some? && results.value.commit != commit then Some(Exit(CollectedOtherCommit))
    else if results.value.collector.Some? && results.value.tag != tag then Some(Exit(CollectedOtherTag))
    else if results.value.items.None? then Some(Exit(ResultsNotList))
    else None
  }

  function CoverFault(actual: seq<Option<string>>, expected: seq<string>): Option<Stop> {
    if HasRepeat(actual) then Some(Exit(ResultIdsNotUnique))
    else if actual == Known(expected) then None
    else
      var unknown := UnknownIn(expected, actual);
      if exists k :: 0 <= k < |unknown| && unknown[k].None? then Some(Crash)
      else Some(Exit(ResultsDoNotCover))
  }

  function MakeRecord(combined: seq<RecordItem>, collected: bool, contract: Contract, commit: Option<string>, tag: Option<string>): Record {
    Record(Some(ResultsV2), Some(CHECKLIST_PATH), Some(contract.checklistSha), Some(RegistryV2), Some(contract.registrySha),
           Some(|combined|),
           Some(Summarize(StatesOf(combined))),
           Some(Entries(combined)),
           if collected then Collection(Some(CollectorV1), commit, tag) else NoCollection)
  }

  /** _build_checklist_record, as a function of what it reads. */
  ghost function BuildRecord(results: Option<Results>, commit: Option<string>, tag: Option<string>, contract: Contract): Result<Record, Stop> {
    match LoadContract(contract)
    case Failure(stop) => Failure(stop)
    case Success(ids) =>
      LoadContractIsSound(contract);
      if HeaderFault(results, commit, tag).Some? then Failure(HeaderFault(results, commit, tag).value)
      else
        var entries := results.value.items.value;
        if CoverFault(ResultIds(entries), ids).Some? then Failure(CoverFault(ResultIds(entries), ids).value)
        else
          match BuildUpTo(entries, RegisteredItems(contract), contract.registry.value.defaultPhase, |entries|)
          case Failure(stop) => Failure(stop)
          case Success(combined) => Success(MakeRecord(combined, results.value.collector.Some?, contract, commit, tag))
  }

  method BuildLoop(entries: seq<Option<ResultItem>>, items: seq<RegistryItem>, default: Option<Phase>)
    returns (r: Result<seq<RecordItem>, Stop>)
    ensures r == BuildUpTo(entries, items, default, |entries|)
  {
    var combined: seq<RecordItem> := [];
    var n := 0;
    while n < |entries|
      invariant n <= |entries|
      invariant BuildUpTo(entries, items, default, n) == Success(combined)
    {
      var one := BuildOne(entries[n], items, default);
      if one.Failure? {
        StoppedBuild(entries, items, default, n + 1, |entries|);
        return Failure(one.error);
      }
      combined := combined + [one.value];
      n := n + 1;
    }
    return Success(combined);
  }

  // ----- checking the record ----------------------------------------------------------------------

  function StateText(state: Option<ItemState>): string {
    match state
    case Some(Pass) => "pass"
    case Some(Blocked) => "blocked"
    case Some(Pending) => "pending"
    case Some(OtherState(text)) => text
    case None => "None"
  }

  predicate Countable(state: Option<ItemState>) {
    state == Some(Pass) || state == Some(Blocked) || state == Some(Pending)
  }

  /** The checks that apply only to collected results. */
  function CollectedErrors(i: nat, f: ResultFields, commit: Option<string>, tag: Option<string>): seq<Blocker> {
      (if f.receiptSha.None? || !IsLowerHex(f.receiptSha.value, 64) then [ItemReceiptSha(i)] else [])
    + (if f.commit != commit then [ItemCommit(i)] else [])
    + (if f.tag != tag then [ItemTag(i)] else [])
    + (match f.observedAt
       case None => [ItemObservedMissing(i)]
       case Some(Unparsable(text)) => [ItemObservedBad(i, text)]
       case Some(At(_)) => [])
  }

  /** The errors of an item whose result has a countable state. */
  function DecidedErrors(i: nat, item: RecordItem, f: ResultFields, registered: RegistryItem, phase: Option<Phase>,
                         collected: bool, commit: Option<string>, tag: Option<string>): seq<Blocker>
    requires item.id.Some?
  {
      (if !Given(f.receipt) then [ItemReceipt(i)] else [])
    + (if collected then CollectedErrors(i, f, commit, tag) else [])
    + (if IsHuman(registered) && f.state == Some(Pass) && !Given(f.reviewer) then [ItemReviewer(i)] else [])
    + UnavailableError(item.id.value, registered)
    + (if f.state == Some(Pending) && PendingPhase(phase) then []
       else if f.state != Some(Pass) then [ResultBlocks(item.id.value, StateText(f.state))] else [])
  }

  function UnavailableError(id: string, registered: RegistryItem): seq<Blocker> {
    if registered.subject.Some? && registered.subject.value.available == Some(false) then
      var reason := registered.subject.value.unavailableReason;
      [SubjectUnavailable(id, if reason.Some? then reason.value else "reason missing")]
    else []
  }

  function MismatchErrors(i: nat, item: RecordItem, registered: RegistryItem, default: Option<Phase>): seq<Blocker> {
      (if item.disposition != registered.disposition then [ItemDisposition(i)] else [])
    + (if (if item.phase.Some? then item.phase else default) != PhaseOf(registered, default) then [ItemPhase(i)] else [])
  }

  function RecordItemErrors(i: nat, entry: Option<RecordItem>, items: seq<RegistryItem>, default: Option<Phase>,
                            collected: bool, commit: Option<string>, tag: Option<string>): seq<Blocker> {
    if entry.None? then [ItemNotObject(i)]
    else if entry.value.id.None? || FindItem(items, entry.value.id).None? then []
    else
      var item := entry.value;
      var registered := FindItem(items, item.id).value;
      MismatchErrors(i, item, registered, default)
      + if item.result.None? then [ItemResult(i)]
        else if !Countable(item.result.value.state) then [ItemUnknownState(i, StateText(item.result.value.state))]
        else DecidedErrors(i, item, item.result.value, registered, PhaseOf(registered, default), collected, commit, tag)
  }

  /** The state an item adds to the summary, if it adds one. */
  function Tallied(entry: Option<RecordItem>, items: seq<RegistryItem>): Option<ItemState> {
    if entry.Some? && entry.value.id.Some? && FindItem(items, entry.value.id).Some?
       && entry.value.result.Some? && Countable(entry.value.result.value.state)
    then entry.value.result.value.state else None
  }

  function TallyList(entries: seq<Option<RecordItem>>, items: seq<RegistryItem>): (r: seq<Option<ItemState>>)
    ensures |r| == |entries|
    ensures forall k :: 0 <= k < |r| ==> r[k] == Tallied(entries[k], items)
  {
    seq(|entries|, k requires 0 <= k < |entries| => Tallied(entries[k], items))
  }

  /** The errors of every item. */
  function RecordErrorLists(entries: seq<Option<RecordItem>>, items: seq<RegistryItem>, default: Option<Phase>,
                            collected: bool, commit: Option<string>, tag: Option<string>): (r: seq<seq<Blocker>>)
    ensures |r| == |entries|
    ensures forall k :: 0 <= k < |r| ==> r[k] == RecordItemErrors(k, entries[k], items, default, collected, commit, tag)
  {
    seq(|entries|, k requires 0 <= k < |entries| => RecordItemErrors(k, entries[k], items, default, collected, commit, tag))
  }

  function RecordIds(entries: seq<Option<RecordItem>>): (r: seq<Option<string>>)
    ensures |r| <= |entries|
    ensures (forall k :: 0 <= k < |entries| ==> entries[k].Some?) ==>
      |r| == |entries| && forall k :: 0 <= k < |entries| ==> r[k] == entries[k].value.id
  {
    if entries == [] then []
    else
      var rest := RecordIds(entries[1..]);
      if entries[0].Some? then [entries[0].value.id] + rest else rest
  }

  function RecordHeaderErrors(r: Record): seq<Blocker> {
      (if r.schema != Some(ResultsV2) then [ResultsSchema] else [])
    + (if r.sourcePath != Some(CHECKLIST_PATH) then [SourcePath] else [])
    + (if r.registrySchema != Some(RegistryV2) then [RecordRegistrySchema] else [])
  }

  function HashErrors(r: Record, contract: Contract): seq<Blocker> {
      (if r.sourceSha != Some(contract.checklistSha) then [SourceHash] else [])
    + (if r.registrySha != Some(contract.registrySha) then [RegistryHash] else [])
  }

  function BindingErrors(c: Collection, commit: Option<string>, tag: Option<string>): seq<Blocker> {
    match c
    case NoCollection => []
    case BadCollection => [CollectionNotObject]
    case Collection(schema, cCommit, cTag) =>
      (if schema != Some(CollectorV1) then [CollectionSchema] else [])
      + (if cCommit != commit then [CollectionCommit] else [])
      + (if cTag != tag then [CollectionTag] else [])
  }

  function RecordIdErrors(expected: seq<string>, actual: seq<Option<string>>): Result<seq<Blocker>, Stop> {
    var repeats := if HasRepeat(actual) then [ItemIdsNotUnique] else [];
    if actual == Known(expected) then Success(repeats)
    else
      var missing := MissingFrom(expected, actual);
      var unknown := UnknownIn(expected, actual);
      if exists k :: 0 <= k < |unknown| && unknown[k].None? then Failure(Crash)
      else Success(repeats
        + (if missing != [] then [ItemMissingIds(missing)] else [])
        + (if unknown != [] then [ItemUnknownIds(Named(unknown))] else [])
        + (if missing == [] && unknown == [] then [ItemOrder] else []))
  }

  /** registry_by_id raises on a registry, or a registry entry, that is not an object. */
  predicate Indexable(registry: Option<Registry>) {
    registry.Some? && (registry.value.items.Some? ==>
      forall k :: 0 <= k < |registry.value.items.value| ==>
        registry.value.items.value[k].Some? && registry.value.items.value[k].value.id.Some?)
  }

  function IndexedItems(registry: Registry): seq<RegistryItem> {
    if registry.items.Some? then ObjectsOf(registry.items.value) else []
  }

  /** The part of the check that walks the items. */
  function BodyErrors(record: Record, entries: seq<Option<RecordItem>>, registry: Registry,
                      commit: Option<string>, tag: Option<string>): seq<Blocker> {
    var items := IndexedItems(registry);
    Flatten(RecordErrorLists(entries, items, registry.defaultPhase, !record.collection.NoCollection?, commit, tag), |entries|)
    + if record.summary != Some(Summarize(TallyList(entries, items))) then [SummaryMismatch] else []
  }

  /** _checklist_blockers, as a function of what it reads. */
  ghost function ChecklistErrors(checklist: Option<Record>, contract: Contract, commit: Option<string>, tag: Option<string>): Result<seq<Blocker>, Stop> {
    if checklist.None? then Success([ResultsMissing])
    else
      var record := checklist.value;
      if Parsed(contract.lines).None? then Success(RecordHeaderErrors(record) + [ContractUnreadable])
      else
        var ids := Ids(Parsed(contract.lines).value);
        match RegistryErrors(contract.registry, ids)
        case Failure(stop) => Failure(stop)
        case Success(registryErrors) =>
          var head := RecordHeaderErrors(record) + registryErrors + HashErrors(record, contract)
                    + BindingErrors(record.collection, commit, tag);
          if record.items.None? then Success(head + [ItemsNotList])
          else
            var entries := record.items.value;
            var count := if record.itemCount != Some(|entries|) then [ItemCount] else [];
            match RecordIdErrors(ids, RecordIds(entries))
            case Failure(stop) => Failure(stop)
            case Success(idErrors) =>
              if !Indexable(contract.registry) then Failure(Crash)
              else Success(head + count + idErrors + BodyErrors(record, entries, contract.registry.value, commit, tag))
  }

  method ItemBlockers(record: Record, entries: seq<Option<RecordItem>>, registry: Registry, commit: Option<string>, tag: Option<string>)
    returns (errors: seq<Blocker>)
    ensures errors == BodyErrors(record, entries, registry, commit, tag)
  {
    var items := IndexedItems(registry);
    var collected := !record.collection.NoCollection?;
    ghost var lists := RecordErrorLists(entries, items, registry.defaultPhase, collected, commit, tag);
    ghost var states := TallyList(entries, items);
    var counts := Summary(0, 0, 0);
    errors := [];
    for index := 0 to |entries|
      invariant errors == Flatten(lists, index)
      invariant counts == SummaryUpTo(states, index)
    {
      counts := CountState(counts, Tallied(entries[index], items));
      errors := errors + RecordItemErrors(index, entries[index], items, registry.defaultPhase, collected, commit, tag);
    }
    if record.summary != Some(counts) {
      errors := errors + [SummaryMismatch];
    }
  }
}
