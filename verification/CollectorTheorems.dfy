/**
  What the collector accepts, said without its steps: two payloads for this release that name the
  registered items one to one, each with a receipt that attests its item.
 */
module CollectorTheorems {
  import opened Basics
  import opened ChecklistRegistry
  import opened ChecklistPipeline

  // ----- what a receipt says ----------------------------------------------------------------------

  /** A genuine receipt for this commit and tag that is not from the future. */
  ghost predicate Genuine(r: Receipt, commit: string, tag: string, now: Timestamp) {
    && r.uri.Some? && Strip(r.uri.value) != "" && !IsPlaceholderUri(r.uri.value)
    && r.sha.Some? && IsLowerHex(r.sha.value, 64)
    && r.commit == Some(commit) && r.tag == Some(tag)
    && r.observedAt.Some? && r.observedAt.value.At? && now.At? && r.observedAt.value.micros <= now.micros
  }

  /** A person with a name of their own. */
  ghost predicate Reviewed(item: ReceiptItem) {
    item.reviewer.Some? && Strip(item.reviewer.value) != "" && Lower(Strip(item.reviewer.value)) !in PLACEHOLDER_REVIEWERS
  }

  /** The receipt item decides its registered item in favour of the release. */
  ghost predicate Attests(item: ReceiptItem, registered: RegistryItem, default: Option<Phase>, commit: string, tag: string, now: Timestamp)
    requires registered.subject.Some?
  {
    && item.disposition == registered.disposition && item.subjectRef == registered.subject.value.ref
    && (item.state == Some(Pass) || (!IsHuman(registered) && item.state == Some(Pending) && PendingPhase(PhaseOf(registered, default))))
    && (IsHuman(registered) ==> Reviewed(item))
    && item.receipt.Some? && Genuine(item.receipt.value, commit, tag, now)
  }

  /** The result carries over what the receipt item says. */
  ghost predicate Reports(result: ResultItem, item: ReceiptItem, registered: RegistryItem, commit: string, tag: string) {
    && result.id == registered.id
    && item.receipt.Some? && item.receipt.value.uri.Some? && (IsHuman(registered) ==> item.reviewer.Some?)
    && result.fields == ResultFields(
         item.state, Some(Strip(item.receipt.value.uri.value)), item.receipt.value.sha, item.receipt.value.observedAt,
         Some(commit), Some(tag), if IsHuman(registered) then Some(Strip(item.reviewer.value)) else None)
  }

  lemma {:induction false} CollectOneIff(item: ReceiptItem, registered: RegistryItem, default: Option<Phase>,
                      commit: string, tag: string, now: Timestamp, result: ResultItem)
    requires registered.id.Some? && registered.subject.Some?
    ensures CollectOne(item, registered, default, commit, tag, now) == Success(result) <==>
      Attests(item, registered, default, commit, tag, now) && Reports(result, item, registered, commit, tag)
  {
  }

  // ----- payloads ---------------------------------------------------------------------------------

  /** These entries name the items of one kind, each exactly once, and nothing else. */
  ghost predicate OneToOne(entries: seq<ReceiptItem>, items: seq<RegistryItem>, human: bool) {
    && (forall i, j :: 0 <= i < j < |entries| ==> entries[i].id != entries[j].id)
    && (forall i :: 0 <= i < |entries| ==> Registered(entries[i].id, items, human))
    && (forall k :: 0 <= k < |items| && IsHuman(items[k]) == human ==> Listed(items[k].id, entries))
  }

  ghost predicate Registered(id: Option<string>, items: seq<RegistryItem>, human: bool) {
    exists k :: 0 <= k < |items| && IsHuman(items[k]) == human && items[k].id == id
  }

  ghost predicate Listed(id: Option<string>, entries: seq<ReceiptItem>) {
    exists i :: 0 <= i < |entries| && entries[i].id == id
  }

  function PayloadOf(schema: Schema, commit: string, tag: string, entries: seq<ReceiptItem>): Payload {
    Payload(Some(schema), Some(commit), Some(tag), Some(Entries(entries)))
  }

  lemma {:induction false} IdsWhereHas(items: seq<RegistryItem>, human: bool, id: string)
    requires forall k :: 0 <= k < |items| ==> items[k].id.Some?
    ensures id in IdsWhere(items, human) <==> Registered(Some(id), items, human)
  {
    if items != [] {
      var rest := items[1..];
      IdsWhereHas(rest, human, id);
      assert items == [items[0]] + rest;
      if Registered(Some(id), rest, human) {
        var k :| 0 <= k < |rest| && IsHuman(rest[k]) == human && rest[k].id == Some(id);
        assert items[k + 1] == rest[k];
      }
      if k :| 1 <= k < |items| && IsHuman(items[k]) == human && items[k].id == Some(id) {
        assert rest[k - 1] == items[k];
      }
    }
  }

  /** The coverage test on ids, in terms of the lists. */
  lemma {:induction false} CoverageIff(entries: seq<ReceiptItem>, items: seq<RegistryItem>, human: bool)
    requires forall k :: 0 <= k < |items| ==> items[k].id.Some?
    ensures
      var ids, expected := ReceiptIds(Entries(entries)), IdsWhere(items, human);
      (!HasRepeat(ids) && MissingFrom(expected, ids) == [] && UnknownIn(expected, ids) == []) <==> OneToOne(entries, items, human)
  {
    var ids, expected := ReceiptIds(Entries(entries)), IdsWhere(items, human);
    RepeatIff(entries);
    MissingIff(entries, items, human);
    UnknownIff(entries, items, human);
  }

  lemma {:induction false} RepeatIff(entries: seq<ReceiptItem>)
    ensures HasRepeat(ReceiptIds(Entries(entries))) <==> exists i, j :: 0 <= i < j < |entries| && entries[i].id == entries[j].id
  {
    var ids := ReceiptIds(Entries(entries));
    assert forall i :: 0 <= i < |entries| ==> ids[i] == entries[i].id;
  }

  lemma {:induction false} ListedIff(entries: seq<ReceiptItem>, id: Option<string>)
    ensures id in ReceiptIds(Entries(entries)) <==> Listed(id, entries)
  {
    var ids := ReceiptIds(Entries(entries));
    assert forall i :: 0 <= i < |entries| ==> ids[i] == entries[i].id;
  }

  lemma {:induction false} MissingIff(entries: seq<ReceiptItem>, items: seq<RegistryItem>, human: bool)
    requires forall k :: 0 <= k < |items| ==> items[k].id.Some?
    ensures MissingFrom(IdsWhere(items, human), ReceiptIds(Entries(entries))) == [] <==>
      forall k :: 0 <= k < |items| && IsHuman(items[k]) == human ==> Listed(items[k].id, entries)
  {
    var ids, expected := ReceiptIds(Entries(entries)), IdsWhere(items, human);
    var missing := MissingFrom(expected, ids);
    if missing == [] {
      forall k | 0 <= k < |items| && IsHuman(items[k]) == human
        ensures Listed(items[k].id, entries)
      {
        assert items[k].id.value in expected && items[k].id.value !in missing;
        ListedIff(entries, items[k].id);
      }
    } else {
      var id := missing[0];
      IdsWhereHas(items, human, id);
      ListedIff(entries, Some(id));
      var k :| 0 <= k < |items| && IsHuman(items[k]) == human && items[k].id == Some(id);
      assert !Listed(items[k].id, entries);
    }
  }

  lemma {:induction false} UnknownIff(entries: seq<ReceiptItem>, items: seq<RegistryItem>, human: bool)
    requires forall k :: 0 <= k < |items| ==> items[k].id.Some?
    ensures UnknownIn(IdsWhere(items, human), ReceiptIds(Entries(entries))) == [] <==>
      forall i :: 0 <= i < |entries| ==> Registered(entries[i].id, items, human)
  {
    var ids, expected := ReceiptIds(Entries(entries)), IdsWhere(items, human);
    var unknown := UnknownIn(expected, ids);
    forall i | 0 <= i < |entries|
      ensures entries[i].id in unknown <==> !Registered(entries[i].id, items, human)
    {
      assert ids[i] == entries[i].id;
      KnownIff(items, human, entries[i].id);
    }
    if unknown != [] {
      assert unknown[0] in ids;
      ListedIff(entries, unknown[0]);
      var i :| 0 <= i < |entries| && entries[i].id == unknown[0];
      assert !Registered(entries[i].id, items, human);
    }
  }

  lemma {:induction false} KnownIff(items: seq<RegistryItem>, human: bool, id: Option<string>)
    requires forall k :: 0 <= k < |items| ==> items[k].id.Some?
    ensures id in Known(IdsWhere(items, human)) <==> Registered(id, items, human)
  {
    if id.Some? {
      IdsWhereHas(items, human, id.value);
      var expected := IdsWhere(items, human);
      if id.value in expected {
        var k :| 0 <= k < |expected| && expected[k] == id.value;
        assert Known(expected)[k] == id;
      }
    }
  }

  /** A payload is taken exactly when it is for this release and its entries are one to one. */
  lemma {:induction false} PayloadTakenIff(payload: Option<Payload>, schema: Schema, source: Label, items: seq<RegistryItem>, human: bool,
                        commit: string, tag: string, entries: seq<ReceiptItem>)
    requires forall k :: 0 <= k < |items| ==> items[k].id.Some?
    ensures PayloadItems(payload, schema, source, IdsWhere(items, human), commit, tag) == Success(Entries(entries)) <==>
      payload == Some(PayloadOf(schema, commit, tag, entries)) && OneToOne(entries, items, human)
  {
    CoverageIff(entries, items, human);
  }

  lemma {:induction false} TakenEntries(items: seq<Option<ReceiptItem>>) returns (entries: seq<ReceiptItem>)
    requires AllObjects(items)
    ensures items == Entries(entries)
  {
    entries := seq(|items|, k requires 0 <= k < |items| => items[k].value);
  }

  // ----- the collection ---------------------------------------------------------------------------

  function From(registered: RegistryItem, receipts: seq<ReceiptItem>, humans: seq<ReceiptItem>): seq<ReceiptItem> {
    if IsHuman(registered) then humans else receipts
  }

  /** The result reports the entry that names its item, and that entry attests the item. */
  ghost predicate BackedBy(result: ResultItem, registered: RegistryItem, entries: seq<ReceiptItem>,
                           default: Option<Phase>, commit: string, tag: string, now: Timestamp)
    requires registered.subject.Some?
  {
    forall i :: 0 <= i < |entries| && entries[i].id == registered.id ==>
      Attests(entries[i], registered, default, commit, tag, now) && Reports(result, entries[i], registered, commit, tag)
  }

  /** Every result is backed by the payload for its kind of item. */
  ghost predicate Backed(collected: seq<ResultItem>, items: seq<RegistryItem>, receipts: seq<ReceiptItem>, humans: seq<ReceiptItem>,
                         default: Option<Phase>, commit: string, tag: string, now: Readings)
    requires forall k :: 0 <= k < |items| ==> items[k].subject.Some?
  {
    && |collected| == |items|
    && forall k :: 0 <= k < |items| ==> BackedBy(collected[k], items[k], From(items[k], receipts, humans), default, commit, tag, now(k))
  }

  lemma {:induction false} FindReceiptAt(entries: seq<ReceiptItem>, i: nat)
    requires i < |entries| && entries[i].id.Some?
    requires forall a, b :: 0 <= a < b < |entries| ==> entries[a].id != entries[b].id
    ensures FindReceipt(Entries(entries), entries[i].id.value) == Some(entries[i])
  {
    var last := |entries| - 1;
    if i < last {
      assert Entries(entries)[..last] == Entries(entries[..last]);
      FindReceiptAt(entries[..last], i);
    }
  }

  ghost predicate Sourced(items: seq<RegistryItem>, receipts: seq<ReceiptItem>, humans: seq<ReceiptItem>) {
    && OneToOne(receipts, items, false) && OneToOne(humans, items, true)
    && forall k :: 0 <= k < |items| ==> items[k].id.Some? && items[k].subject.Some?
  }

  /** The entry that names an item is the one the loop finds. */
  lemma {:induction false} SourceIsTheEntry(items: seq<RegistryItem>, receipts: seq<ReceiptItem>, humans: seq<ReceiptItem>, k: nat) returns (i: nat)
    requires Sourced(items, receipts, humans) && k < |items|
    ensures i < |From(items[k], receipts, humans)| && From(items[k], receipts, humans)[i].id == items[k].id
    ensures SourceOf(items[k], Entries(receipts), Entries(humans)) == Some(From(items[k], receipts, humans)[i])
  {
    var entries := From(items[k], receipts, humans);
    assert Listed(items[k].id, entries);
    i :| 0 <= i < |entries| && entries[i].id == items[k].id;
    FindReceiptAt(entries, i);
  }

  lemma {:induction false} SourcesUsable(items: seq<RegistryItem>, receipts: seq<ReceiptItem>, humans: seq<ReceiptItem>)
    requires Sourced(items, receipts, humans)
    ensures Usable(items, Entries(receipts), Entries(humans))
  {
    forall k | 0 <= k < |items|
      ensures SourceOf(items[k], Entries(receipts), Entries(humans)).Some?
    {
      var i := SourceIsTheEntry(items, receipts, humans, k);
    }
  }

  /** The step of the loop for item k gives this result. */
  ghost predicate Gives(items: seq<RegistryItem>, receipts: seq<Option<ReceiptItem>>, humans: seq<Option<ReceiptItem>>,
                        default: Option<Phase>, commit: string, tag: string, now: Readings, k: nat, result: ResultItem)
    requires Usable(items, receipts, humans) && k < |items|
  {
    CollectOne(SourceOf(items[k], receipts, humans).value, items[k], default, commit, tag, now(k)) == Success(result)
  }

  lemma {:induction false} LoopGives(items: seq<RegistryItem>, receipts: seq<Option<ReceiptItem>>, humans: seq<Option<ReceiptItem>>,
                  default: Option<Phase>, commit: string, tag: string, now: Readings, n: nat)
    requires n <= |items| && Usable(items, receipts, humans)
    requires CollectUpTo(items, receipts, humans, default, commit, tag, now, n).Success?
    ensures forall k :: 0 <= k < n ==>
      Gives(items, receipts, humans, default, commit, tag, now, k, CollectUpTo(items, receipts, humans, default, commit, tag, now, n).value[k])
  {
    if n > 0 {
      LoopGives(items, receipts, humans, default, commit, tag, now, n - 1);
    }
  }

  lemma {:induction false} LoopSucceeds(items: seq<RegistryItem>, receipts: seq<Option<ReceiptItem>>, humans: seq<Option<ReceiptItem>>,
                     default: Option<Phase>, commit: string, tag: string, now: Readings, n: nat, collected: seq<ResultItem>)
    requires n <= |items| && Usable(items, receipts, humans) && n <= |collected|
    requires forall k :: 0 <= k < n ==> Gives(items, receipts, humans, default, commit, tag, now, k, collected[k])
    ensures CollectUpTo(items, receipts, humans, default, commit, tag, now, n).Success?
  {
    if n > 0 {
      LoopSucceeds(items, receipts, humans, default, commit, tag, now, n - 1, collected);
      assert Gives(items, receipts, humans, default, commit, tag, now, n - 1, collected[n - 1]);
    }
  }

  lemma {:induction false} GivesOne(items: seq<RegistryItem>, receipts: seq<Option<ReceiptItem>>, humans: seq<Option<ReceiptItem>>,
                 default: Option<Phase>, commit: string, tag: string, now: Readings, k: nat, a: ResultItem, b: ResultItem)
    requires Usable(items, receipts, humans) && k < |items|
    requires Gives(items, receipts, humans, default, commit, tag, now, k, a) && Gives(items, receipts, humans, default, commit, tag, now, k, b)
    ensures a == b
  {
  }

  lemma {:induction false} LoopReaches(items: seq<RegistryItem>, receipts: seq<Option<ReceiptItem>>, humans: seq<Option<ReceiptItem>>,
                    default: Option<Phase>, commit: string, tag: string, now: Readings, collected: seq<ResultItem>)
    requires Usable(items, receipts, humans) && |collected| == |items|
    requires forall k :: 0 <= k < |items| ==> Gives(items, receipts, humans, default, commit, tag, now, k, collected[k])
    ensures CollectUpTo(items, receipts, humans, default, commit, tag, now, |items|) == Success(collected)
  {
    LoopSucceeds(items, receipts, humans, default, commit, tag, now, |items|, collected);
    LoopGives(items, receipts, humans, default, commit, tag, now, |items|);
    var reached := CollectUpTo(items, receipts, humans, default, commit, tag, now, |items|).value;
    forall k | 0 <= k < |items|
      ensures reached[k] == collected[k]
    {
      GivesOne(items, receipts, humans, default, commit, tag, now, k, reached[k], collected[k]);
    }
    assert reached == collected;
  }

  lemma {:induction false} StepIff(items: seq<RegistryItem>, receipts: seq<ReceiptItem>, humans: seq<ReceiptItem>,
                default: Option<Phase>, commit: string, tag: string, now: Readings, k: nat, result: ResultItem)
    requires Sourced(items, receipts, humans) && Usable(items, Entries(receipts), Entries(humans)) && k < |items|
    ensures Gives(items, Entries(receipts), Entries(humans), default, commit, tag, now, k, result) <==>
      BackedBy(result, items[k], From(items[k], receipts, humans), default, commit, tag, now(k))
  {
    var entries := From(items[k], receipts, humans);
    var found := SourceIsTheEntry(items, receipts, humans, k);
    CollectOneIff(entries[found], items[k], default, commit, tag, now(k), result);
    assert forall i :: 0 <= i < |entries| && entries[i].id == items[k].id ==> i == found;
  }

  /** What the loop collects is backed. */
  lemma {:induction false} LoopIsBacked(collected: seq<ResultItem>, items: seq<RegistryItem>, receipts: seq<ReceiptItem>, humans: seq<ReceiptItem>,
                  default: Option<Phase>, commit: string, tag: string, now: Readings)
    requires Sourced(items, receipts, humans) && Usable(items, Entries(receipts), Entries(humans))
    requires CollectUpTo(items, Entries(receipts), Entries(humans), default, commit, tag, now, |items|) == Success(collected)
    ensures Backed(collected, items, receipts, humans, default, commit, tag, now)
  {
    LoopGives(items, Entries(receipts), Entries(humans), default, commit, tag, now, |items|);
    forall k | 0 <= k < |items|
      ensures BackedBy(collected[k], items[k], From(items[k], receipts, humans), default, commit, tag, now(k))
    {
      StepIff(items, receipts, humans, default, commit, tag, now, k, collected[k]);
    }
  }

  /** What is backed, the loop collects. */
  lemma {:induction false} BackedIsLooped(collected: seq<ResultItem>, items: seq<RegistryItem>, receipts: seq<ReceiptItem>, humans: seq<ReceiptItem>,
                  default: Option<Phase>, commit: string, tag: string, now: Readings)
    requires Sourced(items, receipts, humans) && Usable(items, Entries(receipts), Entries(humans))
    requires Backed(collected, items, receipts, humans, default, commit, tag, now)
    ensures CollectUpTo(items, Entries(receipts), Entries(humans), default, commit, tag, now, |items|) == Success(collected)
  {
    forall k | 0 <= k < |items|
      ensures Gives(items, Entries(receipts), Entries(humans), default, commit, tag, now, k, collected[k])
    {
      StepIff(items, receipts, humans, default, commit, tag, now, k, collected[k]);
    }
    LoopReaches(items, Entries(receipts), Entries(humans), default, commit, tag, now, collected);
  }

  /** A release that can be collected: a loaded contract, two matching payloads, every item backed. */
  ghost predicate Collectable(receiptIndex: Option<Payload>, humanResults: Option<Payload>, commit: string, tag: string,
                              contract: Contract, now: Readings, ids: seq<string>,
                              receipts: seq<ReceiptItem>, humans: seq<ReceiptItem>, collected: seq<ResultItem>) {
    && IsLowerHex(commit, 40) && "v" <= tag
    && LoadedContract(contract, ids)
    && receiptIndex == Some(PayloadOf(ReceiptIndexV1, commit, tag, receipts))
    && humanResults == Some(PayloadOf(HumanResultsV1, commit, tag, humans))
    && Sourced(RegisteredItems(contract), receipts, humans)
    && Backed(collected, RegisteredItems(contract), receipts, humans, contract.registry.value.defaultPhase, commit, tag, now)
  }

  /** Whatever is collectable is collected. */
  lemma {:induction false} CollectableIsCollected(receiptIndex: Option<Payload>, humanResults: Option<Payload>, commit: string, tag: string,
                               contract: Contract, now: Readings, ids: seq<string>,
                               receipts: seq<ReceiptItem>, humans: seq<ReceiptItem>, collected: seq<ResultItem>)
    requires Collectable(receiptIndex, humanResults, commit, tag, contract, now, ids, receipts, humans, collected)
    ensures Collect(receiptIndex, humanResults, commit, tag, contract, now) == Success(CollectedResults(collected, commit, tag))
  {
    LoadContractIsSound(contract);
    var items := RegisteredItems(contract);
    PayloadTakenIff(receiptIndex, ReceiptIndexV1, ReceiptIndex, items, false, commit, tag, receipts);
    PayloadTakenIff(humanResults, HumanResultsV1, HumanResults, items, true, commit, tag, humans);
    SourcesUsable(items, receipts, humans);
    BackedIsLooped(collected, items, receipts, humans, contract.registry.value.defaultPhase, commit, tag, now);
  }

  /** Whatever is collected was collectable. */
  lemma {:induction false} CollectedWasCollectable(receiptIndex: Option<Payload>, humanResults: Option<Payload>, commit: string, tag: string,
                                contract: Contract, now: Readings)
    returns (ids: seq<string>, receipts: seq<ReceiptItem>, humans: seq<ReceiptItem>, collected: seq<ResultItem>)
    requires Collect(receiptIndex, humanResults, commit, tag, contract, now).Success?
    ensures Collect(receiptIndex, humanResults, commit, tag, contract, now).value == CollectedResults(collected, commit, tag)
    ensures Collectable(receiptIndex, humanResults, commit, tag, contract, now, ids, receipts, humans, collected)
  {
    LoadContractIsSound(contract);
    ids := LoadContract(contract).value;
    var items, default := RegisteredItems(contract), contract.registry.value.defaultPhase;
    var taken := PayloadItems(receiptIndex, ReceiptIndexV1, ReceiptIndex, IdsWhere(items, false), commit, tag).value;
    var takenHumans := PayloadItems(humanResults, HumanResultsV1, HumanResults, IdsWhere(items, true), commit, tag).value;
    receipts := TakenEntries(taken);
    humans := TakenEntries(takenHumans);
    PayloadTakenIff(receiptIndex, ReceiptIndexV1, ReceiptIndex, items, false, commit, tag, receipts);
    PayloadTakenIff(humanResults, HumanResultsV1, HumanResults, items, true, commit, tag, humans);
    assert forall k :: 0 <= k < |items| ==> SoundItem(items[k], default);
    SourcesUsable(items, receipts, humans);
    collected := CollectUpTo(items, taken, takenHumans, default, commit, tag, now, |items|).value;
    LoopIsBacked(collected, items, receipts, humans, default, commit, tag, now);
  }
}
