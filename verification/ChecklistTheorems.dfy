/**
  What the checklist pipeline promises: the record check accepts exactly the release-ready records,
  and every collected result passes the builder and the check.
 */
module ChecklistTheorems {
  import opened Basics
  import opened ChecklistParser
  import opened ChecklistRegistry
  import opened ChecklistPipeline
  import opened ChecklistRecord

  // ----- soundness: what an accepted record says --------------------------------------------------

  /** The result of an item that may be released. */
  ghost predicate ReadyResult(f: ResultFields, registered: RegistryItem, phase: Option<Phase>,
                              collected: bool, commit: Option<string>, tag: Option<string>) {
    && (f.state == Some(Pass) || (f.state == Some(Pending) && PendingPhase(phase)))
    && Given(f.receipt)
    && (collected ==>
          && f.receiptSha.Some? && IsLowerHex(f.receiptSha.value, 64)
          && f.commit == commit && f.tag == tag
          && f.observedAt.Some? && f.observedAt.value.At?)
    && (IsHuman(registered) && f.state == Some(Pass) ==> Given(f.reviewer))
    && registered.subject.Some? && registered.subject.value.available == Some(true)
  }

  /** One item of a record that may be released. */
  ghost predicate ReadyItem(item: RecordItem, registered: RegistryItem, default: Option<Phase>,
                            collected: bool, commit: Option<string>, tag: Option<string>) {
    && item.id == registered.id
    && item.disposition == registered.disposition
    && (if item.phase.Some? then item.phase else default) == PhaseOf(registered, default)
    && item.result.Some?
    && ReadyResult(item.result.value, registered, PhaseOf(registered, default), collected, commit, tag)
  }

  ghost predicate Bound(c: Collection, commit: Option<string>, tag: Option<string>) {
    c.NoCollection? || c == Collection(Some(CollectorV1), commit, tag)
  }

  /** One ready item per checklist id, in checklist order. */
  ghost predicate ReadyItems(entries: seq<Option<RecordItem>>, items: seq<RegistryItem>, default: Option<Phase>,
                             collected: bool, commit: Option<string>, tag: Option<string>) {
    && |entries| == |items|
    && forall k :: 0 <= k < |items| ==>
         entries[k].Some? && ReadyItem(entries[k].value, items[k], default, collected, commit, tag)
  }

  /** The states of a record's items. */
  function EntryStates(entries: seq<Option<RecordItem>>): (r: seq<Option<ItemState>>)
    ensures |r| == |entries|
  {
    seq(|entries|, k requires 0 <= k < |entries| =>
      if entries[k].Some? && entries[k].value.result.Some? then entries[k].value.result.value.state else None)
  }

  /** A summary that counts the items: pass + blocked + pending is the item count, nothing is
      blocked, and pending is the number of pending items. */
  ghost predicate Conserves(summary: Option<Summary>, entries: seq<Option<RecordItem>>) {
    && summary.Some?
    && summary.value.pass + summary.value.blocked + summary.value.pending == |entries|
    && summary.value.blocked == 0
    && summary.value.pending == Count(EntryStates(entries), Some(Pending), |entries|)
  }

  /** A record that may be released: bound to this contract, commit and tag. */
  ghost predicate ReleaseReady(record: Record, contract: Contract, ids: seq<string>, commit: Option<string>, tag: Option<string>) {
    && LoadedContract(contract, ids)
    && record.schema == Some(ResultsV2)
    && record.sourcePath == Some(CHECKLIST_PATH)
    && record.registrySchema == Some(RegistryV2)
    && record.sourceSha == Some(contract.checklistSha)
    && record.registrySha == Some(contract.registrySha)
    && Bound(record.collection, commit, tag)
    && record.items.Some?
    && ReadyItems(record.items.value, RegisteredItems(contract), contract.registry.value.defaultPhase,
                  !record.collection.NoCollection?, commit, tag)
    && record.itemCount == Some(|ids|)
    && Conserves(record.summary, record.items.value)
  }

  lemma {:induction false} DecidedIff(i: nat, item: RecordItem, f: ResultFields, registered: RegistryItem, phase: Option<Phase>,
                   collected: bool, commit: Option<string>, tag: Option<string>)
    requires item.id.Some? && Countable(f.state)
    requires registered.subject.Some? && registered.subject.value.available.Some?
    ensures DecidedErrors(i, item, f, registered, phase, collected, commit, tag) == [] <==>
      ReadyResult(f, registered, phase, collected, commit, tag)
  {
    var a := if !Given(f.receipt) then [ItemReceipt(i)] else [];
    var b := if collected then CollectedErrors(i, f, commit, tag) else [];
    var c := if IsHuman(registered) && f.state == Some(Pass) && !Given(f.reviewer) then [ItemReviewer(i)] else [];
    var d := UnavailableError(item.id.value, registered);
    var e := if f.state == Some(Pending) && PendingPhase(phase) then []
             else if f.state != Some(Pass) then [ResultBlocks(item.id.value, StateText(f.state))] else [];
    assert DecidedErrors(i, item, f, registered, phase, collected, commit, tag) == a + b + c + d + e;
    assert |a + b + c + d + e| == |a| + |b| + |c| + |d| + |e|;
    assert a + b + c + d + e == [] <==> |a| == 0 && |b| == 0 && |c| == 0 && |d| == 0 && |e| == 0;
    var available: bool := registered.subject.value.available.value;
    assert registered.subject.value.available == Some(if available then true else false);
    assert |d| == 0 <==> registered.subject.value.available == Some(true);
  }

  lemma {:induction false} ReadyItemIff(i: nat, item: RecordItem, items: seq<RegistryItem>, registered: RegistryItem, default: Option<Phase>,
                     collected: bool, commit: Option<string>, tag: Option<string>)
    requires item.id.Some? && FindItem(items, item.id) == Some(registered) && registered.id == item.id
    requires SoundItem(registered, default)
    ensures RecordItemErrors(i, Some(item), items, default, collected, commit, tag) == [] <==>
      ReadyItem(item, registered, default, collected, commit, tag)
    ensures ReadyItem(item, registered, default, collected, commit, tag) ==>
      Tallied(Some(item), items) == item.result.value.state
  {
    var mismatch := MismatchErrors(i, item, registered, default);
    if item.result.Some? && Countable(item.result.value.state) {
      var phase := PhaseOf(registered, default);
      var decided := DecidedErrors(i, item, item.result.value, registered, phase, collected, commit, tag);
      DecidedIff(i, item, item.result.value, registered, phase, collected, commit, tag);
      assert mismatch + decided == [] <==> mismatch == [] && decided == [];
    }
  }

  /** Entries that name the checklist ids, in order. */
  ghost predicate NamesIds(entries: seq<Option<RecordItem>>, ids: seq<string>) {
    |entries| == |ids| && forall k :: 0 <= k < |ids| ==> entries[k].Some? && entries[k].value.id == Some(ids[k])
  }

  lemma {:induction false} NoRecordErrorsIff(entries: seq<Option<RecordItem>>, items: seq<RegistryItem>, default: Option<Phase>, ids: seq<string>,
                          collected: bool, commit: Option<string>, tag: Option<string>)
    requires Covers(items, default, ids) && NamesIds(entries, ids)
    ensures Flatten(RecordErrorLists(entries, items, default, collected, commit, tag), |entries|) == [] <==>
      ReadyItems(entries, items, default, collected, commit, tag)
  {
    var lists := RecordErrorLists(entries, items, default, collected, commit, tag);
    FlattenEmptyIff(lists, |entries|);
    forall k | 0 <= k < |ids|
      ensures lists[k] == [] <==> ReadyItem(entries[k].value, items[k], default, collected, commit, tag)
    {
      NoItemErrorsAtIff(entries, items, default, ids, collected, commit, tag, k);
    }
  }

  lemma {:induction false} NoItemErrorsAtIff(entries: seq<Option<RecordItem>>, items: seq<RegistryItem>, default: Option<Phase>, ids: seq<string>,
                          collected: bool, commit: Option<string>, tag: Option<string>, k: nat)
    requires Covers(items, default, ids) && NamesIds(entries, ids) && k < |ids|
    ensures RecordItemErrors(k, entries[k], items, default, collected, commit, tag) == [] <==>
      ReadyItem(entries[k].value, items[k], default, collected, commit, tag)
  {
    CoveredLookup(items, default, ids, k);
    assert entries[k] == Some(entries[k].value);
    ReadyItemIff(k, entries[k].value, items, items[k], default, collected, commit, tag);
  }

  lemma {:induction false} ReadyItemsAreTallied(entries: seq<Option<RecordItem>>, items: seq<RegistryItem>, default: Option<Phase>, ids: seq<string>,
                             collected: bool, commit: Option<string>, tag: Option<string>)
    requires Covers(items, default, ids) && NamesIds(entries, ids)
    requires ReadyItems(entries, items, default, collected, commit, tag)
    ensures TallyList(entries, items) == EntryStates(entries)
    ensures forall k :: 0 <= k < |entries| ==> EntryStates(entries)[k] == Some(Pass) || EntryStates(entries)[k] == Some(Pending)
  {
    forall k | 0 <= k < |ids|
      ensures TallyList(entries, items)[k] == EntryStates(entries)[k]
      ensures EntryStates(entries)[k] == Some(Pass) || EntryStates(entries)[k] == Some(Pending)
    {
      CoveredLookup(items, default, ids, k);
      assert entries[k] == Some(entries[k].value) && ReadyItem(entries[k].value, items[k], default, collected, commit, tag);
    }
  }

  /** Passes and pendings split a list that holds nothing else. */
  lemma {:induction false} PassesAndPendings(states: seq<Option<ItemState>>, n: nat)
    requires n <= |states| && forall k :: 0 <= k < n ==> states[k] == Some(Pass) || states[k] == Some(Pending)
    ensures SummaryUpTo(states, n).blocked == 0
    ensures SummaryUpTo(states, n).pass + SummaryUpTo(states, n).pending == n
  {
    if n > 0 {
      PassesAndPendings(states, n - 1);
    }
  }

  lemma {:induction false} SummaryIffConserves(summary: Option<Summary>, entries: seq<Option<RecordItem>>)
    requires forall k :: 0 <= k < |entries| ==> EntryStates(entries)[k] == Some(Pass) || EntryStates(entries)[k] == Some(Pending)
    ensures summary == Some(Summarize(EntryStates(entries))) <==> Conserves(summary, entries)
  {
    PassesAndPendings(EntryStates(entries), |entries|);
    SummaryCounts(EntryStates(entries), |entries|);
  }

  lemma {:induction false} NoRecordIdErrorsIff(expected: seq<string>, actual: seq<Option<string>>)
    requires Distinct(expected)
    ensures RecordIdErrors(expected, actual) == Success([]) <==> actual == Known(expected)
  {
    if actual == Known(expected) {
      assert !HasRepeat(actual);
    }
  }

  /** The item walk and the summary comparison find nothing exactly on ready, truly counted items. */
  lemma {:induction false} NoBodyErrorsIff(record: Record, entries: seq<Option<RecordItem>>, registry: Registry, ids: seq<string>,
                        commit: Option<string>, tag: Option<string>)
    requires Covers(IndexedItems(registry), registry.defaultPhase, ids) && NamesIds(entries, ids)
    ensures BodyErrors(record, entries, registry, commit, tag) == [] <==>
      && ReadyItems(entries, IndexedItems(registry), registry.defaultPhase, !record.collection.NoCollection?, commit, tag)
      && Conserves(record.summary, entries)
  {
    var items, collected := IndexedItems(registry), !record.collection.NoCollection?;
    NoRecordErrorsIff(entries, items, registry.defaultPhase, ids, collected, commit, tag);
    if ReadyItems(entries, items, registry.defaultPhase, collected, commit, tag) {
      ReadyItemsAreTallied(entries, items, registry.defaultPhase, ids, collected, commit, tag);
      SummaryIffConserves(record.summary, entries);
    }
  }

  /** A silent item walk met objects only. */
  lemma {:induction false} SilentWalkMeetsObjects(record: Record, entries: seq<Option<RecordItem>>, registry: Registry, commit: Option<string>, tag: Option<string>)
    requires BodyErrors(record, entries, registry, commit, tag) == []
    ensures forall k :: 0 <= k < |entries| ==> entries[k].Some?
  {
    var lists := RecordErrorLists(entries, IndexedItems(registry), registry.defaultPhase, !record.collection.NoCollection?, commit, tag);
    FlattenEmptyIff(lists, |entries|);
    forall k | 0 <= k < |entries|
      ensures entries[k].Some?
    {
      assert lists[k] == [];
    }
  }

  lemma {:induction false} LoadedIsIndexed(contract: Contract, ids: seq<string>)
    requires LoadedContract(contract, ids)
    ensures Indexable(contract.registry) && IndexedItems(contract.registry.value) == RegisteredItems(contract)
  {
    RegistryAcceptedIff(contract.registry, ids);
  }

  /** Every part of the record check is silent. */
  ghost predicate AllSilent(record: Record, contract: Contract, ids: seq<string>, commit: Option<string>, tag: Option<string>) {
    && RecordHeaderErrors(record) == []
    && RegistryErrors(contract.registry, ids) == Success([])
    && HashErrors(record, contract) == []
    && BindingErrors(record.collection, commit, tag) == []
    && record.items.Some?
    && record.itemCount == Some(|record.items.value|)
    && RecordIdErrors(ids, RecordIds(record.items.value)) == Success([])
    && Indexable(contract.registry)
    && BodyErrors(record, record.items.value, contract.registry.value, commit, tag) == []
  }

  lemma {:induction false} SilentIff(record: Record, contract: Contract, commit: Option<string>, tag: Option<string>)
    ensures ChecklistErrors(Some(record), contract, commit, tag) == Success([]) <==>
      Parsed(contract.lines).Some? && AllSilent(record, contract, Ids(Parsed(contract.lines).value), commit, tag)
  {
    if Parsed(contract.lines).Some? {
      var ids := Ids(Parsed(contract.lines).value);
      var registry := RegistryErrors(contract.registry, ids);
      if registry.Success? {
        var a, b := RecordHeaderErrors(record), registry.value;
        var c, d := HashErrors(record, contract), BindingErrors(record.collection, commit, tag);
        assert |a + b + c + d| == |a| + |b| + |c| + |d|;
        if record.items.Some? && Indexable(contract.registry) && RecordIdErrors(ids, RecordIds(record.items.value)).Success? {
          var e := if record.itemCount != Some(|record.items.value|) then [ItemCount] else [];
          var f := RecordIdErrors(ids, RecordIds(record.items.value)).value;
          var g := BodyErrors(record, record.items.value, contract.registry.value, commit, tag);
          assert ChecklistErrors(Some(record), contract, commit, tag) == Success(a + b + c + d + e + f + g);
          assert |a + b + c + d + e + f + g| == |a + b + c + d| + |e| + |f| + |g|;
          assert a + b + c + d + e + f + g == [] <==> a == [] && b == [] && c == [] && d == [] && e == [] && f == [] && g == [];
        }
      }
    }
  }

  lemma {:induction false} NamesIdsIff(entries: seq<Option<RecordItem>>, ids: seq<string>)
    requires forall k :: 0 <= k < |entries| ==> entries[k].Some?
    ensures RecordIds(entries) == Known(ids) <==> NamesIds(entries, ids)
  {
    if RecordIds(entries) == Known(ids) {
      assert forall k :: 0 <= k < |ids| ==> entries[k].value.id == Known(ids)[k];
    }
  }

  lemma {:induction false} SilentIsReady(record: Record, contract: Contract, ids: seq<string>, commit: Option<string>, tag: Option<string>)
    requires LoadedContract(contract, ids) && AllSilent(record, contract, ids, commit, tag)
    ensures ReleaseReady(record, contract, ids, commit, tag)
  {
    LoadedIsIndexed(contract, ids);
    var entries := record.items.value;
    SilentWalkMeetsObjects(record, entries, contract.registry.value, commit, tag);
    NoRecordIdErrorsIff(ids, RecordIds(entries));
    NamesIdsIff(entries, ids);
    NoBodyErrorsIff(record, entries, contract.registry.value, ids, commit, tag);
  }

  lemma {:induction false} ReadyIsSilent(record: Record, contract: Contract, ids: seq<string>, commit: Option<string>, tag: Option<string>)
    requires ReleaseReady(record, contract, ids, commit, tag)
    ensures AllSilent(record, contract, ids, commit, tag)
  {
    LoadedIsIndexed(contract, ids);
    var entries, items := record.items.value, RegisteredItems(contract);
    assert NamesIds(entries, ids) by {
      forall k | 0 <= k < |ids|
        ensures entries[k].Some? && entries[k].value.id == Some(ids[k])
      {
        assert entries[k].value.id == items[k].id;
      }
    }
    NamesIdsIff(entries, ids);
    NoRecordIdErrorsIff(ids, RecordIds(entries));
    NoBodyErrorsIff(record, entries, contract.registry.value, ids, commit, tag);
  }

  /** The record check accepts a record if and only if it is release-ready: canonical ids in order,
      each item passed or pending where pending is allowed, human passes reviewed, no subject
      unavailable, and pass + blocked + pending equal to the item count. */
  lemma {:induction false} RecordAcceptedIff(record: Record, contract: Contract, commit: Option<string>, tag: Option<string>)
    ensures ChecklistErrors(Some(record), contract, commit, tag) == Success([]) <==>
      Parsed(contract.lines).Some? && ReleaseReady(record, contract, Ids(Parsed(contract.lines).value), commit, tag)
  {
    SilentIff(record, contract, commit, tag);
    if Parsed(contract.lines).Some? {
      var ids := Ids(Parsed(contract.lines).value);
      if AllSilent(record, contract, ids, commit, tag) {
        LoadContractIsSound(contract);
        assert LoadContract(contract) == Success(ids);
        SilentIsReady(record, contract, ids, commit, tag);
      }
      if ReleaseReady(record, contract, ids, commit, tag) {
        ReadyIsSilent(record, contract, ids, commit, tag);
      }
    }
  }

  // ----- completeness: what the collector hands over ----------------------------------------------

  /** The error of every registered item whose subject is unavailable. */
  function UnavailableLists(items: seq<RegistryItem>): (r: seq<seq<Blocker>>)
    requires forall k :: 0 <= k < |items| ==> items[k].id.Some?
    ensures |r| == |items|
    ensures forall k :: 0 <= k < |r| ==> r[k] == UnavailableError(items[k].id.value, items[k])
  {
    seq(|items|, k requires 0 <= k < |items| => UnavailableError(items[k].id.value, items[k]))
  }

  lemma {:induction false} EligibleItemPasses(i: nat, result: ResultItem, registered: RegistryItem, items: seq<RegistryItem>, default: Option<Phase>,
                           commit: string, tag: string)
    requires registered.id.Some? && FindItem(items, registered.id) == Some(registered) && SoundItem(registered, default)
    requires Eligible(result, registered, default, commit, tag)
    ensures
      var built := BuildOne(Some(result), items, default);
      && built.Success? && built.value.id == registered.id
      && RecordItemErrors(i, Some(built.value), items, default, true, Some(commit), Some(tag))
         == UnavailableError(registered.id.value, registered)
      && built.value.result.Some?
      && Tallied(Some(built.value), items) == built.value.result.value.state
  {
    var built := BuildOne(Some(result), items, default).value;
    assert MismatchErrors(i, built, registered, default) == [];
    assert CollectedErrors(i, built.result.value, Some(commit), Some(tag)) == [];
  }

  /** Collected results, one eligible result per registered item. */
  ghost predicate EligibleList(collected: seq<ResultItem>, items: seq<RegistryItem>, default: Option<Phase>, commit: string, tag: string) {
    |collected| == |items| && forall k :: 0 <= k < |items| ==> Eligible(collected[k], items[k], default, commit, tag)
  }

  /** The builder joins every eligible result; walking the joined list reports the unavailable
      subjects and counts every state. */
  lemma {:induction false} EligibleListPasses(collected: seq<ResultItem>, items: seq<RegistryItem>, default: Option<Phase>, ids: seq<string>, commit: string, tag: string)
    requires Covers(items, default, ids) && EligibleList(collected, items, default, commit, tag)
    ensures BuildUpTo(Entries(collected), items, default, |ids|).Success?
    ensures
      var combined := BuildUpTo(Entries(collected), items, default, |ids|).value;
      && NamesIds(Entries(combined), ids)
      && RecordErrorLists(Entries(combined), items, default, true, Some(commit), Some(tag)) == UnavailableLists(items)
      && TallyList(Entries(combined), items) == StatesOf(combined)
  {
    EligibleBuilds(collected, items, default, ids, commit, tag);
    var combined := BuildUpTo(Entries(collected), items, default, |ids|).value;
    JoinedListPasses(collected, combined, items, default, ids, commit, tag);
  }

  lemma {:induction false} EligibleBuilds(collected: seq<ResultItem>, items: seq<RegistryItem>, default: Option<Phase>, ids: seq<string>, commit: string, tag: string)
    requires Covers(items, default, ids) && EligibleList(collected, items, default, commit, tag)
    ensures BuildUpTo(Entries(collected), items, default, |ids|).Success?
    ensures
      var combined := BuildUpTo(Entries(collected), items, default, |ids|).value;
      |combined| == |ids| && forall k :: 0 <= k < |ids| ==> BuildOne(Entries(collected)[k], items, default) == Success(combined[k])
  {
    forall k | 0 <= k < |ids|
      ensures BuildOne(Entries(collected)[k], items, default).Success?
    {
      var _ := EligibleEntry(collected, items, default, ids, commit, tag, k);
    }
    BuildSucceeds(Entries(collected), items, default, |ids|);
  }

  lemma {:induction false} JoinedListPasses(collected: seq<ResultItem>, combined: seq<RecordItem>, items: seq<RegistryItem>, default: Option<Phase>,
                         ids: seq<string>, commit: string, tag: string)
    requires Covers(items, default, ids) && EligibleList(collected, items, default, commit, tag) && |combined| == |ids|
    requires forall k :: 0 <= k < |ids| ==> BuildOne(Entries(collected)[k], items, default) == Success(combined[k])
    ensures NamesIds(Entries(combined), ids)
    ensures RecordErrorLists(Entries(combined), items, default, true, Some(commit), Some(tag)) == UnavailableLists(items)
    ensures TallyList(Entries(combined), items) == StatesOf(combined)
  {
    forall k | 0 <= k < |ids|
      ensures combined[k].id == Some(ids[k])
      ensures RecordItemErrors(k, Some(combined[k]), items, default, true, Some(commit), Some(tag)) == UnavailableLists(items)[k]
      ensures Tallied(Some(combined[k]), items) == StatesOf(combined)[k]
    {
      var built := EligibleEntry(collected, items, default, ids, commit, tag, k);
      assert built == combined[k];
    }
  }

  lemma {:induction false} EligibleEntry(collected: seq<ResultItem>, items: seq<RegistryItem>, default: Option<Phase>, ids: seq<string>,
                      commit: string, tag: string, k: nat) returns (built: RecordItem)
    requires Covers(items, default, ids) && EligibleList(collected, items, default, commit, tag) && k < |ids|
    ensures BuildOne(Entries(collected)[k], items, default) == Success(built) && built.id == Some(ids[k])
    ensures RecordItemErrors(k, Some(built), items, default, true, Some(commit), Some(tag)) == UnavailableLists(items)[k]
    ensures built.result.Some? && Tallied(Some(built), items) == built.result.value.state
  {
    CoveredLookup(items, default, ids, k);
    EligibleItemPasses(k, collected[k], items[k], items, default, commit, tag);
    built := BuildOne(Some(collected[k]), items, default).value;
  }

  /** The list inside a collection. */
  lemma {:induction false} CollectedItems(receiptIndex: Option<Payload>, humanResults: Option<Payload>, commit: string, tag: string,
                       contract: Contract, now: Readings, ids: seq<string>) returns (collected: seq<ResultItem>)
    requires LoadContract(contract) == Success(ids) && LoadedContract(contract, ids)
    requires Collect(receiptIndex, humanResults, commit, tag, contract, now).Success?
    ensures Collect(receiptIndex, humanResults, commit, tag, contract, now).value == CollectedResults(collected, commit, tag)
    ensures EligibleList(collected, RegisteredItems(contract), contract.registry.value.defaultPhase, commit, tag)
  {
    var items := RegisteredItems(contract);
    var receipts := PayloadItems(receiptIndex, ReceiptIndexV1, ReceiptIndex, IdsWhere(items, false), commit, tag).value;
    var humans := PayloadItems(humanResults, HumanResultsV1, HumanResults, IdsWhere(items, true), commit, tag).value;
    PayloadsAreUsable(items, receipts, humans);
    collected := CollectUpTo(items, receipts, humans, contract.registry.value.defaultPhase, commit, tag, now, |items|).value;
    CollectedAreEligible(items, receipts, humans, contract.registry.value.defaultPhase, commit, tag, now, |items|);
  }

  lemma {:induction false} NoCoverFault(collected: seq<ResultItem>, items: seq<RegistryItem>, default: Option<Phase>, ids: seq<string>, commit: string, tag: string)
    requires Covers(items, default, ids) && EligibleList(collected, items, default, commit, tag)
    ensures CoverFault(ResultIds(Entries(collected)), ids).None?
  {
    var actual := ResultIds(Entries(collected));
    forall k | 0 <= k < |ids|
      ensures actual[k] == Some(ids[k])
    {
      assert Eligible(collected[k], items[k], default, commit, tag);
    }
    assert actual == Known(ids);
    assert !HasRepeat(actual);
  }

  /** A record that the builder makes for a contract carries the contract's own header values. */
  lemma {:induction false} MadeHeaderIsSilent(combined: seq<RecordItem>, collected: bool, contract: Contract, commit: Option<string>, tag: Option<string>)
    ensures
      var record := MakeRecord(combined, collected, contract, commit, tag);
      && RecordHeaderErrors(record) == [] && HashErrors(record, contract) == []
      && BindingErrors(record.collection, commit, tag) == []
      && record.items == Some(Entries(combined)) && record.itemCount == Some(|Entries(combined)|)
  {
  }

  lemma {:induction false} MadeBody(combined: seq<RecordItem>, collected: bool, contract: Contract, registry: Registry, commit: Option<string>, tag: Option<string>)
    requires TallyList(Entries(combined), IndexedItems(registry)) == StatesOf(combined)
    ensures BodyErrors(MakeRecord(combined, collected, contract, commit, tag), Entries(combined), registry, commit, tag)
      == Flatten(RecordErrorLists(Entries(combined), IndexedItems(registry), registry.defaultPhase, collected, commit, tag), |combined|)
  {
  }

  /** When everything but the item walk is silent, the check reports the walk. */
  lemma {:induction false} OnlyTheBodySpeaks(record: Record, contract: Contract, ids: seq<string>, commit: Option<string>, tag: Option<string>)
    requires Parsed(contract.lines).Some? && ids == Ids(Parsed(contract.lines).value)
    requires RegistryErrors(contract.registry, ids) == Success([]) && Indexable(contract.registry)
    requires RecordHeaderErrors(record) == [] && HashErrors(record, contract) == []
    requires BindingErrors(record.collection, commit, tag) == []
    requires record.items.Some? && record.itemCount == Some(|record.items.value|)
    requires RecordIdErrors(ids, RecordIds(record.items.value)) == Success([])
    ensures ChecklistErrors(Some(record), contract, commit, tag)
      == Success(BodyErrors(record, record.items.value, contract.registry.value, commit, tag))
  {
    var body := BodyErrors(record, record.items.value, contract.registry.value, commit, tag);
    var none: seq<Blocker> := [];
    assert ChecklistErrors(Some(record), contract, commit, tag) == Success(none + none + none + none + none + none + body);
    assert none + none + none + none + none + none + body == body;
  }

  /** The check of a made record whose items name the checklist: only the item walk can speak. */
  lemma {:induction false} MadeRecordErrors(combined: seq<RecordItem>, collected: bool, contract: Contract, ids: seq<string>, commit: Option<string>, tag: Option<string>)
    requires LoadedContract(contract, ids) && NamesIds(Entries(combined), ids)
    requires TallyList(Entries(combined), RegisteredItems(contract)) == StatesOf(combined)
    ensures ChecklistErrors(Some(MakeRecord(combined, collected, contract, commit, tag)), contract, commit, tag)
      == Success(Flatten(RecordErrorLists(Entries(combined), RegisteredItems(contract), contract.registry.value.defaultPhase,
                                          collected, commit, tag), |combined|))
  {
    LoadedIsIndexed(contract, ids);
    NamesIdsIff(Entries(combined), ids);
    NoRecordIdErrorsIff(ids, RecordIds(Entries(combined)));
    MadeHeaderIsSilent(combined, collected, contract, commit, tag);
    MadeBody(combined, collected, contract, contract.registry.value, commit, tag);
    OnlyTheBodySpeaks(MakeRecord(combined, collected, contract, commit, tag), contract, ids, commit, tag);
  }

  /** The builder accepts a covering collection and joins it. */
  lemma {:induction false} BuilderAccepts(collected: seq<ResultItem>, combined: seq<RecordItem>, contract: Contract, ids: seq<string>, commit: string, tag: string)
    requires LoadContract(contract) == Success(ids) && LoadedContract(contract, ids)
    requires CoverFault(ResultIds(Entries(collected)), ids).None?
    requires BuildUpTo(Entries(collected), RegisteredItems(contract), contract.registry.value.defaultPhase, |collected|) == Success(combined)
    ensures BuildRecord(Some(CollectedResults(collected, commit, tag)), Some(commit), Some(tag), contract)
      == Success(MakeRecord(combined, true, contract, Some(commit), Some(tag)))
  {
    HeaderAccepted(collected, commit, tag);
  }

  lemma {:induction false} HeaderAccepted(collected: seq<ResultItem>, commit: string, tag: string)
    ensures HeaderFault(Some(CollectedResults(collected, commit, tag)), Some(commit), Some(tag)).None?
  {
  }

  /** Whatever the collector returns is accepted by the builder for the same contract, commit and
      tag, and the record check then reports the unavailable subjects, one error each in checklist
      order, and nothing else. */
  lemma {:induction false} CollectedResultsPassThePipeline(receiptIndex: Option<Payload>, humanResults: Option<Payload>, commit: string, tag: string,
                                        contract: Contract, now: Readings)
    requires Collect(receiptIndex, humanResults, commit, tag, contract, now).Success?
    ensures LoadContract(contract).Success? && LoadedContract(contract, LoadContract(contract).value)
    ensures
      var results := Collect(receiptIndex, humanResults, commit, tag, contract, now).value;
      var record := BuildRecord(Some(results), Some(commit), Some(tag), contract);
      && record.Success?
      && ChecklistErrors(Some(record.value), contract, Some(commit), Some(tag))
         == Success(Flatten(UnavailableLists(RegisteredItems(contract)), |RegisteredItems(contract)|))
  {
    LoadContractIsSound(contract);
    var ids := LoadContract(contract).value;
    var collected := CollectedItems(receiptIndex, humanResults, commit, tag, contract, now, ids);
    EligibleRecord(collected, contract, ids, commit, tag);
  }

  /** An eligible list for a loaded contract goes through the builder and the check. */
  lemma {:induction false} EligibleRecord(collected: seq<ResultItem>, contract: Contract, ids: seq<string>, commit: string, tag: string)
    requires LoadContract(contract) == Success(ids) && LoadedContract(contract, ids)
    requires EligibleList(collected, RegisteredItems(contract), contract.registry.value.defaultPhase, commit, tag)
    ensures
      var record := BuildRecord(Some(CollectedResults(collected, commit, tag)), Some(commit), Some(tag), contract);
      && record.Success?
      && ChecklistErrors(Some(record.value), contract, Some(commit), Some(tag))
         == Success(Flatten(UnavailableLists(RegisteredItems(contract)), |RegisteredItems(contract)|))
  {
    var items, default := RegisteredItems(contract), contract.registry.value.defaultPhase;
    EligibleListPasses(collected, items, default, ids, commit, tag);
    NoCoverFault(collected, items, default, ids, commit, tag);
    var combined := BuildUpTo(Entries(collected), items, default, |ids|).value;
    BuilderAccepts(collected, combined, contract, ids, commit, tag);
    MadeRecordErrors(combined, true, contract, ids, Some(commit), Some(tag));
  }
}
