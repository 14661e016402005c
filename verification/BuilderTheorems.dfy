/** What the record builder accepts, said without its steps, and what the check says of its records. */
module BuilderTheorems {
  import opened Basics
  import opened ChecklistRegistry
  import opened ChecklistPipeline
  import opened ChecklistRecord
  import opened ChecklistTheorems

  /** The result may stand for its registered item, and this is the record of it. */
  ghost predicate Joins(result: ResultItem, registered: RegistryItem, default: Option<Phase>, one: RecordItem) {
    var f, phase := result.fields, PhaseOf(registered, default);
    && result.id == registered.id
    && AllowedState(f.state, phase) && Given(f.receipt)
    && (IsHuman(registered) && f.state == Some(Pass) ==> Given(f.reviewer))
    && one == RecordItem(registered.id, registered.disposition, phase, Some(f.(reviewer := Keep(f.reviewer))))
  }

  /** Results without a collector, or collected for exactly this commit and tag. */
  ghost predicate ForThisRelease(results: Results, commit: Option<string>, tag: Option<string>) {
    && results.schema == Some(ResultsV2)
    && (results.collector.None? ||
        (results.collector == Some(CollectorV1) && commit.Some? && tag.Some? && results.commit == commit && results.tag == tag))
  }

  /** A buildable input: the results are for this release and join the checklist item by item, in order. */
  ghost predicate Buildable(results: Option<Results>, commit: Option<string>, tag: Option<string>, contract: Contract,
                            ids: seq<string>, entries: seq<ResultItem>, combined: seq<RecordItem>) {
    && LoadedContract(contract, ids)
    && results.Some? && ForThisRelease(results.value, commit, tag) && results.value.items == Some(Entries(entries))
    && JoinedList(entries, RegisteredItems(contract), contract.registry.value.defaultPhase, combined)
  }

  ghost predicate JoinedList(entries: seq<ResultItem>, items: seq<RegistryItem>, default: Option<Phase>, combined: seq<RecordItem>) {
    && |entries| == |items| == |combined|
    && forall k :: 0 <= k < |items| ==> Joins(entries[k], items[k], default, combined[k])
  }

  lemma {:induction false} HeaderIff(results: Option<Results>, commit: Option<string>, tag: Option<string>)
    ensures HeaderFault(results, commit, tag).None? <==>
      results.Some? && ForThisRelease(results.value, commit, tag) && results.value.items.Some?
  {
  }

  lemma {:induction false} CoverIff(entries: seq<ResultItem>, ids: seq<string>)
    requires Distinct(ids)
    ensures CoverFault(ResultIds(Entries(entries)), ids).None? <==>
      |entries| == |ids| && forall k :: 0 <= k < |ids| ==> entries[k].id == Some(ids[k])
  {
    var actual := ResultIds(Entries(entries));
    assert |actual| == |entries| && forall k :: 0 <= k < |entries| ==> actual[k] == entries[k].id;
    assert actual == Known(ids) ==> !HasRepeat(actual);
    assert actual == Known(ids) <==> |entries| == |ids| && forall k :: 0 <= k < |ids| ==> entries[k].id == Some(ids[k]);
  }

  lemma {:induction false} BuildOneIff(result: ResultItem, items: seq<RegistryItem>, default: Option<Phase>, ids: seq<string>, k: nat, one: RecordItem)
    requires Covers(items, default, ids) && k < |ids| && result.id == Some(ids[k])
    ensures BuildOne(Some(result), items, default) == Success(one) <==> Joins(result, items[k], default, one)
  {
    CoveredLookup(items, default, ids, k);
  }

  lemma {:induction false} BuildLoopIff(entries: seq<Option<ResultItem>>, items: seq<RegistryItem>, default: Option<Phase>, n: nat, combined: seq<RecordItem>)
    requires n <= |entries|
    ensures BuildUpTo(entries, items, default, n) == Success(combined) <==>
      |combined| == n && forall k :: 0 <= k < n ==> BuildOne(entries[k], items, default) == Success(combined[k])
  {
    if |combined| == n && forall k :: 0 <= k < n ==> BuildOne(entries[k], items, default) == Success(combined[k]) {
      BuildSucceeds(entries, items, default, n);
      var built := BuildUpTo(entries, items, default, n).value;
      assert forall k :: 0 <= k < n ==> Success(built[k]) == BuildOne(entries[k], items, default) == Success(combined[k]);
      assert built == combined;
    }
  }

  /** The loop joins a covering list exactly when every result joins its item. */
  lemma {:induction false} JoinedIff(entries: seq<ResultItem>, items: seq<RegistryItem>, default: Option<Phase>, ids: seq<string>, combined: seq<RecordItem>)
    requires Covers(items, default, ids)
    ensures (CoverFault(ResultIds(Entries(entries)), ids).None? && BuildUpTo(Entries(entries), items, default, |entries|) == Success(combined)) <==>
      JoinedList(entries, items, default, combined)
  {
    CoverIff(entries, ids);
    BuildLoopIff(Entries(entries), items, default, |entries|, combined);
    if |entries| == |ids| && |combined| == |ids| && forall k :: 0 <= k < |ids| ==> entries[k].id == Some(ids[k]) {
      forall k | 0 <= k < |ids|
        ensures BuildOne(Entries(entries)[k], items, default) == Success(combined[k]) <==> Joins(entries[k], items[k], default, combined[k])
      {
        BuildOneIff(entries[k], items, default, ids, k, combined[k]);
      }
    } else if JoinedList(entries, items, default, combined) {
      EntriesNameIds(entries, items, default, ids, combined);
      assert false;
    }
  }

  lemma {:induction false} EntriesNameIds(entries: seq<ResultItem>, items: seq<RegistryItem>, default: Option<Phase>, ids: seq<string>, combined: seq<RecordItem>)
    requires Covers(items, default, ids) && JoinedList(entries, items, default, combined)
    ensures |entries| == |ids| && |combined| == |ids| && forall k :: 0 <= k < |ids| ==> entries[k].id == Some(ids[k])
  {
    forall k | 0 <= k < |ids|
      ensures entries[k].id == Some(ids[k])
    {
      assert Joins(entries[k], items[k], default, combined[k]);
    }
  }

  /** Whatever is buildable is built, into the record of the joined items. */
  lemma {:induction false} BuildableIsBuilt(results: Option<Results>, commit: Option<string>, tag: Option<string>, contract: Contract,
                         ids: seq<string>, entries: seq<ResultItem>, combined: seq<RecordItem>)
    requires Buildable(results, commit, tag, contract, ids, entries, combined)
    ensures BuildRecord(results, commit, tag, contract) == Success(MakeRecord(combined, results.value.collector.Some?, contract, commit, tag))
  {
    LoadContractIsSound(contract);
    HeaderIff(results, commit, tag);
    JoinedIff(entries, RegisteredItems(contract), contract.registry.value.defaultPhase, ids, combined);
  }

  /** When every result id is an object's, the list holds objects only. */
  lemma {:induction false} ResultObjects(entries: seq<Option<ResultItem>>, items: seq<RegistryItem>, default: Option<Phase>) returns (objects: seq<ResultItem>)
    requires BuildUpTo(entries, items, default, |entries|).Success?
    ensures entries == Entries(objects)
  {
    var combined := BuildUpTo(entries, items, default, |entries|).value;
    forall k | 0 <= k < |entries|
      ensures entries[k].Some?
    {
      assert BuildOne(entries[k], items, default) == Success(combined[k]);
    }
    objects := seq(|entries|, k requires 0 <= k < |entries| => entries[k].value);
  }

  /** Whatever is built was buildable. */
  lemma {:induction false} BuiltWasBuildable(results: Option<Results>, commit: Option<string>, tag: Option<string>, contract: Contract)
    returns (ids: seq<string>, entries: seq<ResultItem>, combined: seq<RecordItem>)
    requires BuildRecord(results, commit, tag, contract).Success?
    ensures Buildable(results, commit, tag, contract, ids, entries, combined)
    ensures BuildRecord(results, commit, tag, contract).value == MakeRecord(combined, results.value.collector.Some?, contract, commit, tag)
  {
    LoadContractIsSound(contract);
    ids := LoadContract(contract).value;
    HeaderIff(results, commit, tag);
    var items, default := RegisteredItems(contract), contract.registry.value.defaultPhase;
    var given := results.value.items.value;
    entries := ResultObjects(given, items, default);
    combined := BuildUpTo(given, items, default, |given|).value;
    JoinedIff(entries, items, default, ids, combined);
  }

  // ----- what the record check says of a built record ---------------------------------------------

  /** The faults that the builder lets through: a collected result that is not bound or dated, an
      unavailable subject, a blocked state. */
  function BuiltItemErrors(i: nat, f: ResultFields, registered: RegistryItem, collected: bool, commit: Option<string>, tag: Option<string>): seq<Blocker>
    requires registered.id.Some?
  {
      (if collected then CollectedErrors(i, f, commit, tag) else [])
    + UnavailableError(registered.id.value, registered)
    + (if f.state == Some(Blocked) then [ResultBlocks(registered.id.value, "blocked")] else [])
  }

  function BuiltErrorLists(entries: seq<ResultItem>, items: seq<RegistryItem>, collected: bool, commit: Option<string>, tag: Option<string>): (r: seq<seq<Blocker>>)
    requires |entries| == |items| && forall k :: 0 <= k < |items| ==> items[k].id.Some?
    ensures |r| == |items|
    ensures forall k :: 0 <= k < |r| ==> r[k] == BuiltItemErrors(k, entries[k].fields, items[k], collected, commit, tag)
  {
    seq(|items|, k requires 0 <= k < |items| => BuiltItemErrors(k, entries[k].fields, items[k], collected, commit, tag))
  }

  lemma {:induction false} Regroup<T>(none: seq<T>, x: seq<T>, u: seq<T>, b: seq<T>)
    requires none == []
    ensures none + x + none + u + b == x + u + b
  {
    assert none + x == x && x + none == x;
  }

  lemma {:induction false} JoinedDecision(i: nat, one: RecordItem, f: ResultFields, registered: RegistryItem, phase: Option<Phase>,
                       collected: bool, commit: Option<string>, tag: Option<string>)
    requires registered.id.Some? && one.id == registered.id
    requires AllowedState(f.state, phase) && Given(f.receipt) && (IsHuman(registered) && f.state == Some(Pass) ==> Given(f.reviewer))
    ensures DecidedErrors(i, one, f, registered, phase, collected, commit, tag) == BuiltItemErrors(i, f, registered, collected, commit, tag)
  {
    var none: seq<Blocker> := [];
    var x := if collected then CollectedErrors(i, f, commit, tag) else none;
    var b := if f.state == Some(Blocked) then [ResultBlocks(registered.id.value, "blocked")] else none;
    assert DecidedErrors(i, one, f, registered, phase, collected, commit, tag)
        == none + x + none + UnavailableError(registered.id.value, registered) + b;
    Regroup(none, x, UnavailableError(registered.id.value, registered), b);
  }

  lemma {:induction false} JoinedItemErrors(i: nat, result: ResultItem, registered: RegistryItem, items: seq<RegistryItem>, default: Option<Phase>,
                         one: RecordItem, collected: bool, commit: Option<string>, tag: Option<string>)
    requires registered.id.Some? && FindItem(items, registered.id) == Some(registered) && SoundItem(registered, default)
    requires Joins(result, registered, default, one)
    ensures RecordItemErrors(i, Some(one), items, default, collected, commit, tag) == BuiltItemErrors(i, result.fields, registered, collected, commit, tag)
    ensures one.result.Some? && Tallied(Some(one), items) == one.result.value.state
  {
    var f, phase := one.result.value, PhaseOf(registered, default);
    JoinedDecision(i, one, f, registered, phase, collected, commit, tag);
    assert MismatchErrors(i, one, registered, default) == [];
    var decided := DecidedErrors(i, one, f, registered, phase, collected, commit, tag);
    assert RecordItemErrors(i, Some(one), items, default, collected, commit, tag) == [] + decided == decided;
    SameButReviewer(i, f, result.fields, registered, collected, commit, tag);
  }

  lemma {:induction false} SameButReviewer(i: nat, f: ResultFields, g: ResultFields, registered: RegistryItem, collected: bool, commit: Option<string>, tag: Option<string>)
    requires registered.id.Some? && f == g.(reviewer := f.reviewer)
    ensures BuiltItemErrors(i, f, registered, collected, commit, tag) == BuiltItemErrors(i, g, registered, collected, commit, tag)
  {
  }

  lemma {:induction false} JoinedListErrors(entries: seq<ResultItem>, items: seq<RegistryItem>, default: Option<Phase>, ids: seq<string>,
                         combined: seq<RecordItem>, collected: bool, commit: Option<string>, tag: Option<string>)
    requires Covers(items, default, ids) && JoinedList(entries, items, default, combined)
    ensures NamesIds(Entries(combined), ids) && TallyList(Entries(combined), items) == StatesOf(combined)
    ensures RecordErrorLists(Entries(combined), items, default, collected, commit, tag) == BuiltErrorLists(entries, items, collected, commit, tag)
  {
    forall k | 0 <= k < |items|
      ensures combined[k].id == Some(ids[k]) && Tallied(Some(combined[k]), items) == StatesOf(combined)[k]
      ensures RecordItemErrors(k, Some(combined[k]), items, default, collected, commit, tag)
           == BuiltItemErrors(k, entries[k].fields, items[k], collected, commit, tag)
    {
      assert Joins(entries[k], items[k], default, combined[k]);
      CoveredLookup(items, default, ids, k);
      JoinedItemErrors(k, entries[k], items[k], items, default, combined[k], collected, commit, tag);
    }
  }

  /** The check of any built record, collected or not: item by item in checklist order, exactly the
      faults that the builder lets through. */
  lemma {:induction false} BuiltRecordErrors(results: Option<Results>, commit: Option<string>, tag: Option<string>, contract: Contract)
    returns (ids: seq<string>, entries: seq<ResultItem>, combined: seq<RecordItem>)
    requires BuildRecord(results, commit, tag, contract).Success?
    ensures Buildable(results, commit, tag, contract, ids, entries, combined)
    ensures ChecklistErrors(Some(BuildRecord(results, commit, tag, contract).value), contract, commit, tag)
      == Success(Flatten(BuiltErrorLists(entries, RegisteredItems(contract), results.value.collector.Some?, commit, tag), |entries|))
  {
    ids, entries, combined := BuiltWasBuildable(results, commit, tag, contract);
    BuildableErrors(results, commit, tag, contract, ids, entries, combined);
  }

  lemma {:induction false} BuildableErrors(results: Option<Results>, commit: Option<string>, tag: Option<string>, contract: Contract,
                        ids: seq<string>, entries: seq<ResultItem>, combined: seq<RecordItem>)
    requires Buildable(results, commit, tag, contract, ids, entries, combined)
    ensures ChecklistErrors(Some(MakeRecord(combined, results.value.collector.Some?, contract, commit, tag)), contract, commit, tag)
      == Success(Flatten(BuiltErrorLists(entries, RegisteredItems(contract), results.value.collector.Some?, commit, tag), |entries|))
  {
    var collected := results.value.collector.Some?;
    JoinedListErrors(entries, RegisteredItems(contract), contract.registry.value.defaultPhase, ids, combined, collected, commit, tag);
    MadeRecordErrors(combined, collected, contract, ids, commit, tag);
  }
}
