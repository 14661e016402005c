/**
  Exact cover of the mutation evidence: the outcome check of one shard and the aggregation of all
  shards up to the call of the external scorer.

  A mutant is known by the digest of its identity fields.  Instants are integers; an optional field
  is None when it is missing or not of its type.
 */
module MutantEvidence {
  import opened Basics

  const CRATE := "maekon-core"
  const VERSION := "27.1.0"

  /** A mutant identity: whether all identity fields are present, its package, and their digest. */
  datatype MutantDoc = MutantDoc(complete: bool, package: string, key: string)

  datatype ProcessStatus = Ok | TimedOut | Failed(code: int) | OtherStatus

  datatype PhaseName = BuildPhase | TestPhase | OtherPhase

  datatype PhaseResult = PhaseResult(name: PhaseName, status: ProcessStatus)

  datatype Kind = Caught | Missed | Timeout | Unviable

  datatype Summary = Mutant(kind: Kind) | BaselineSuccess | OtherSummary

  datatype Scenario = Baseline | MutantScenario(mutant: MutantDoc) | OtherScenario

  datatype Row = Row(scenario: Scenario, summary: Summary, phases: seq<PhaseResult>)

  datatype Counts = Counts(caught: Option<int>, missed: Option<int>, timeout: Option<int>, unviable: Option<int>)

  datatype Document = Document(
    version: Option<string>,
    start: Option<int>,
    end: Option<int>,
    rows: Option<seq<Row>>,
    counts: Counts,
    total: Option<int>,
    successes: Option<int>)

  /** The mutants of a run by outcome, each list in row order. */
  datatype Classified = Classified(caught: seq<string>, missed: seq<string>, timeout: seq<string>, unviable: seq<string>)

  datatype Reject =
    | ShardJobFailed | ArtifactNames | EmptyEnumeration | BadIdentity | DuplicateIdentity
    | NoDocument | ToolVersion | RunTimes | BadOutcomes | BaselineCount | BaselineFailed
    | UnknownScenario | DuplicateOutcome | BadPhases | Unclassified | Contradiction
    | Coverage | CountMismatch | TotalMismatch | SuccessfulMutants
    | Metadata | ExitCode | Window | DuplicateAcrossShards | WholeMismatch

  // ----- identities -------------------------------------------------------------------------------

  predicate KnownMutant(m: MutantDoc) {
    m.complete && m.package == CRATE
  }

  function KeysOfDocs(items: seq<MutantDoc>): (r: seq<string>)
    ensures |r| == |items|
    ensures forall i :: 0 <= i < |r| ==> r[i] == items[i].key
  {
    seq(|items|, i requires 0 <= i < |items| => items[i].key)
  }

  function Elements(keys: seq<string>): set<string> {
    set k | k in keys
  }

  /** An enumeration names at least one mutant, all of this crate, each once. */
  predicate GoodEnumeration(items: seq<MutantDoc>) {
    items != [] && (forall i :: 0 <= i < |items| ==> KnownMutant(items[i])) && !HasRepeat(KeysOfDocs(items))
  }

  function MutantSet(items: seq<MutantDoc>): (r: Result<set<string>, Reject>)
    ensures r.Success? <==> GoodEnumeration(items)
    ensures r.Success? ==> r.value == Elements(KeysOfDocs(items))
  {
    if items == [] then Failure(EmptyEnumeration)
    else if exists i :: 0 <= i < |items| && !KnownMutant(items[i]) then Failure(BadIdentity)
    else if HasRepeat(KeysOfDocs(items)) then Failure(DuplicateIdentity)
    else Success(Elements(KeysOfDocs(items)))
  }

  // ----- one row ----------------------------------------------------------------------------------

  function StatusesOf(phases: seq<PhaseResult>): (r: seq<ProcessStatus>)
    ensures |r| == |phases|
    ensures forall i :: 0 <= i < |r| ==> r[i] == phases[i].status
  {
    seq(|phases|, i requires 0 <= i < |phases| => phases[i].status)
  }

  predicate GoodPhases(phases: seq<PhaseResult>) {
    || (|phases| == 1 && phases[0].name == BuildPhase)
    || (|phases| == 2 && phases[0].name == BuildPhase && phases[1].name == TestPhase)
  }

  predicate IsFailure(status: ProcessStatus) {
    status.Failed? && status.code != 0
  }

  /** The branches that compare a claimed outcome with the phase statuses. */
  predicate Consistent(kind: Kind, statuses: seq<ProcessStatus>) {
    match kind
    case Caught => |statuses| == 2 && statuses[0] == Ok && IsFailure(statuses[1])
    case Missed => statuses == [Ok, Ok]
    case Unviable => |statuses| == 1 && IsFailure(statuses[0])
    case Timeout => statuses == [TimedOut] || statuses == [Ok, TimedOut]
  }

  /** The outcome that phase statuses stand for, read off the statuses alone. */
  function OutcomeOf(statuses: seq<ProcessStatus>): Option<Kind> {
    if |statuses| == 0 || |statuses| > 2 then None
    else
      var last := statuses[|statuses| - 1];
      if |statuses| == 2 && statuses[0] != Ok then None
      else if last == TimedOut then Some(Timeout)
      else if IsFailure(last) then Some(if |statuses| == 1 then Unviable else Caught)
      else if last == Ok && |statuses| == 2 then Some(Missed)
      else None
  }

  /** A row's summary is a function of its phase statuses. */
  lemma {:induction false} SummaryFollowsFromStatuses(kind: Kind, statuses: seq<ProcessStatus>)
    ensures Consistent(kind, statuses) <==> OutcomeOf(statuses) == Some(kind)
  {
    assert statuses == [Ok, Ok] <==> |statuses| == 2 && statuses[0] == Ok && statuses[1] == Ok;
    assert statuses == [TimedOut] <==> |statuses| == 1 && statuses[0] == TimedOut;
    assert statuses == [Ok, TimedOut] <==> |statuses| == 2 && statuses[0] == Ok && statuses[1] == TimedOut;
  }

  /** A mutant row that may be counted. */
  predicate SoundRow(row: Row) {
    && row.scenario.MutantScenario? && KnownMutant(row.scenario.mutant)
    && GoodPhases(row.phases)
    && row.summary.Mutant?
    && OutcomeOf(StatusesOf(row.phases)) == Some(row.summary.kind)
  }

  // ----- lists of rows ----------------------------------------------------------------------------

  /** The keys of the mutant rows among the first n, in row order. */
  function RowKeys(rows: seq<Row>, n: nat): seq<string>
    requires n <= |rows|
  {
    if n == 0 then []
    else RowKeys(rows, n - 1) + if rows[n - 1].scenario.MutantScenario? then [rows[n - 1].scenario.mutant.key] else []
  }

  /** Those whose summary is the given outcome. */
  function KindKeys(rows: seq<Row>, kind: Kind, n: nat): seq<string>
    requires n <= |rows|
  {
    if n == 0 then []
    else
      var row := rows[n - 1];
      KindKeys(rows, kind, n - 1)
      + if row.scenario.MutantScenario? && row.summary == Mutant(kind) then [row.scenario.mutant.key] else []
  }

  function Baselines(rows: seq<Row>, n: nat): nat
    requires n <= |rows|
  {
    if n == 0 then 0 else Baselines(rows, n - 1) + if rows[n - 1].scenario == Baseline then 1 else 0
  }

  predicate GoodBaseline(row: Row) {
    row.summary == BaselineSuccess && GoodPhases(row.phases) && StatusesOf(row.phases) == [Ok, Ok]
  }

  function Classification(rows: seq<Row>, n: nat): Classified
    requires n <= |rows|
  {
    Classified(KindKeys(rows, Caught, n), KindKeys(rows, Missed, n), KindKeys(rows, Timeout, n), KindKeys(rows, Unviable, n))
  }

  predicate CountsMatch(counts: Counts, c: Classified) {
    && counts.caught == Some(|c.caught|) && counts.missed == Some(|c.missed|)
    && counts.timeout == Some(|c.timeout|) && counts.unviable == Some(|c.unviable|)
  }

  predicate GoodHeader(document: Option<Document>) {
    && document.Some? && document.value.version == Some(VERSION)
    && document.value.start.Some? && document.value.end.Some? && document.value.start.value <= document.value.end.value
    && document.value.rows.Some?
  }

  /** What the outcome document of one shard must say about the enumeration `expected`. */
  ghost predicate ValidOutcomes(document: Option<Document>, expected: set<string>) {
    && GoodHeader(document)
    && var rows := document.value.rows.value;
    && Baselines(rows, |rows|) == 1
    && (forall i :: 0 <= i < |rows| ==> if rows[i].scenario == Baseline then GoodBaseline(rows[i]) else SoundRow(rows[i]))
    && !HasRepeat(RowKeys(rows, |rows|))
    && Elements(RowKeys(rows, |rows|)) == expected
    && CountsMatch(document.value.counts, Classification(rows, |rows|))
    && document.value.total == Some(|expected|)
    && document.value.successes == Some(0)
  }

  lemma {:induction false} RowKeysGrow(rows: seq<Row>, m: nat, n: nat)
    requires m <= n <= |rows|
    ensures RowKeys(rows, m) <= RowKeys(rows, n)
  {
    if m < n {
      RowKeysGrow(rows, m, n - 1);
    }
  }

  lemma {:induction false} RepeatsGrow(a: seq<string>, b: seq<string>)
    requires a <= b && HasRepeat(a)
    ensures HasRepeat(b)
  {
    var i, j :| 0 <= i < j < |a| && a[i] == a[j];
    assert b[i] == b[j];
  }

  lemma {:induction false} RepeatsAppend(keys: seq<string>, key: string)
    requires !HasRepeat(keys)
    ensures HasRepeat(keys + [key]) <==> key in keys
  {
    var longer := keys + [key];
    if key in keys {
      var i :| 0 <= i < |keys| && keys[i] == key;
      assert longer[i] == longer[|keys|];
    }
  }

  lemma {:induction false} ElementsAppend(keys: seq<string>, key: string)
    ensures Elements(keys + [key]) == Elements(keys) + {key}
  {
  }

  lemma {:induction false} DistinctSize(keys: seq<string>)
    requires !HasRepeat(keys)
    ensures |Elements(keys)| == |keys|
  {
    if keys == [] {
      assert Elements(keys) == {};
    } else {
      var shorter, key := keys[..|keys| - 1], keys[|keys| - 1];
      assert keys == shorter + [key];
      assert !HasRepeat(shorter) by {
        if HasRepeat(shorter) {
          RepeatsGrow(shorter, keys);
        }
      }
      RepeatsAppend(shorter, key);
      DistinctSize(shorter);
      ElementsAppend(shorter, key);
    }
  }

  // ----- the outcome check ------------------------------------------------------------------------

  /** What the row loop has established after n rows. */
  ghost predicate RowsChecked(rows: seq<Row>, n: nat, seen: set<string>, c: Classified)
    requires n <= |rows|
  {
    && (forall i :: 0 <= i < n && rows[i].scenario != Baseline ==> SoundRow(rows[i]))
    && !HasRepeat(RowKeys(rows, n))
    && seen == Elements(RowKeys(rows, n))
    && c == Classification(rows, n)
  }

  function Add(c: Classified, kind: Kind, key: string): Classified {
    match kind
    case Caught => c.(caught := c.caught + [key])
    case Missed => c.(missed := c.missed + [key])
    case Timeout => c.(timeout := c.timeout + [key])
    case Unviable => c.(unviable := c.unviable + [key])
  }

  lemma {:induction false} RowStep(rows: seq<Row>, n: nat, seen: set<string>, c: Classified)
    requires n < |rows| && RowsChecked(rows, n, seen, c)
    requires SoundRow(rows[n]) && rows[n].scenario.mutant.key !in seen
    ensures RowsChecked(rows, n + 1, seen + {rows[n].scenario.mutant.key}, Add(c, rows[n].summary.kind, rows[n].scenario.mutant.key))
  {
    var key := rows[n].scenario.mutant.key;
    assert RowKeys(rows, n + 1) == RowKeys(rows, n) + [key];
    RepeatsAppend(RowKeys(rows, n), key);
    ElementsAppend(RowKeys(rows, n), key);
    AddIsClassification(rows, n);
  }

  lemma {:induction false} AddIsClassification(rows: seq<Row>, n: nat)
    requires n < |rows| && SoundRow(rows[n])
    ensures Classification(rows, n + 1) == Add(Classification(rows, n), rows[n].summary.kind, rows[n].scenario.mutant.key)
  {
    var key := rows[n].scenario.mutant.key;
    assert forall kind :: KindKeys(rows, kind, n + 1) == if rows[n].summary.kind == kind then KindKeys(rows, kind, n) + [key] else KindKeys(rows, kind, n);
  }

  lemma {:induction false} BaselineStep(rows: seq<Row>, n: nat, seen: set<string>, c: Classified)
    requires n < |rows| && RowsChecked(rows, n, seen, c) && rows[n].scenario == Baseline
    ensures RowsChecked(rows, n + 1, seen, c)
  {
    assert RowKeys(rows, n + 1) == RowKeys(rows, n);
    assert forall kind :: KindKeys(rows, kind, n + 1) == KindKeys(rows, kind, n);
  }

  lemma {:induction false} DuplicateIsRepeat(rows: seq<Row>, n: nat, seen: set<string>, c: Classified)
    requires n < |rows| && RowsChecked(rows, n, seen, c)
    requires rows[n].scenario.MutantScenario? && rows[n].scenario.mutant.key in seen
    ensures HasRepeat(RowKeys(rows, |rows|))
  {
    var key := rows[n].scenario.mutant.key;
    assert RowKeys(rows, n + 1) == RowKeys(rows, n) + [key];
    RepeatsAppend(RowKeys(rows, n), key);
    RowKeysGrow(rows, n + 1, |rows|);
    RepeatsGrow(RowKeys(rows, n + 1), RowKeys(rows, |rows|));
  }

  /** The checks on one mutant row, in the order the source makes them. */
  function RowFault(row: Row, seen: set<string>): (r: Option<Reject>)
    requires row.scenario != Baseline
    ensures r.None? <==> SoundRow(row) && row.scenario.mutant.key !in seen
  {
    if row.scenario.OtherScenario? then Some(UnknownScenario)
    else if !KnownMutant(row.scenario.mutant) then Some(BadIdentity)
    else if row.scenario.mutant.key in seen then Some(DuplicateOutcome)
    else if !GoodPhases(row.phases) then Some(BadPhases)
    else if !row.summary.Mutant? then Some(Unclassified)
    else
      SummaryFollowsFromStatuses(row.summary.kind, StatusesOf(row.phases));
      if !Consistent(row.summary.kind, StatusesOf(row.phases)) then Some(Contradiction) else None
  }

  /** The row loop: it succeeds exactly when every mutant row is sound and no key comes twice. */
  method ClassifyRows(rows: seq<Row>) returns (r: Result<Classified, Reject>, seen: set<string>)
    ensures r.Success? <==>
      (forall i :: 0 <= i < |rows| && rows[i].scenario != Baseline ==> SoundRow(rows[i])) && !HasRepeat(RowKeys(rows, |rows|))
    ensures r.Success? ==> r.value == Classification(rows, |rows|) && seen == Elements(RowKeys(rows, |rows|))
  {
    var classified := Classified([], [], [], []);
    seen := {};
    var n := 0;
    while n < |rows|
      invariant n <= |rows|
      invariant RowsChecked(rows, n, seen, classified)
    {
      var row := rows[n];
      if row.scenario == Baseline {
        BaselineStep(rows, n, seen, classified);
      } else {
        var fault := RowFault(row, seen);
        if fault.Some? {
          if row.scenario.MutantScenario? && row.scenario.mutant.key in seen {
            DuplicateIsRepeat(rows, n, seen, classified);
          }
          return Failure(fault.value), seen;
        }
        RowStep(rows, n, seen, classified);
        seen := seen + {row.scenario.mutant.key};
        classified := Add(classified, row.summary.kind, row.scenario.mutant.key);
      }
      n := n + 1;
    }
    return Success(classified), seen;
  }

  ghost predicate OnlyBaseline(rows: seq<Row>, n: nat, at: nat)
    requires n <= |rows|
  {
    at < n && rows[at].scenario == Baseline && forall i :: 0 <= i < n && rows[i].scenario == Baseline ==> i == at
  }

  /** The number of baseline rows, and the only one if there is exactly one. */
  method FindBaseline(rows: seq<Row>) returns (count: nat, at: nat)
    ensures count == Baselines(rows, |rows|)
    ensures count == 1 ==> OnlyBaseline(rows, |rows|, at)
  {
    count, at := 0, 0;
    for n := 0 to |rows|
      invariant count == Baselines(rows, n)
      invariant count == 0 ==> forall i :: 0 <= i < n ==> rows[i].scenario != Baseline
      invariant count == 1 ==> OnlyBaseline(rows, n, at)
    {
      if rows[n].scenario == Baseline {
        count, at := count + 1, n;
      }
    }
  }

  /** verify_outcomes: accepts exactly the documents that cover the enumeration. */
  method VerifyOutcomes(document: Option<Document>, expected: set<string>) returns (r: Result<Classified, Reject>)
    ensures r.Success? <==> ValidOutcomes(document, expected)
    ensures r.Success? ==> r.value == Classification(document.value.rows.value, |document.value.rows.value|)
  {
    if document.None? {
      return Failure(NoDocument);
    }
    if document.value.version != Some(VERSION) {
      return Failure(ToolVersion);
    }
    if document.value.start.None? || document.value.end.None? || document.value.start.value > document.value.end.value {
      return Failure(RunTimes);
    }
    if document.value.rows.None? {
      return Failure(BadOutcomes);
    }
    var rows := document.value.rows.value;
    var count, at := FindBaseline(rows);
    if count != 1 {
      return Failure(BaselineCount);
    }
    if !GoodBaseline(rows[at]) {
      return Failure(BaselineFailed);
    }
    var classified, seen := ClassifyRows(rows);
    if classified.Failure? {
      return classified;
    }
    if seen != expected {
      return Failure(Coverage);
    }
    if !CountsMatch(document.value.counts, classified.value) {
      return Failure(CountMismatch);
    }
    if document.value.total != Some(|seen|) {
      return Failure(TotalMismatch);
    }
    if document.value.successes != Some(0) {
      return Failure(SuccessfulMutants);
    }
    return classified;
  }

  // ----- all shards -------------------------------------------------------------------------------

  datatype Shard = Shard(
    metadataMatches: bool,          // provenance, shard number and toolchain equal the plan's
    exitCode: Option<int>,
    enumeration: seq<MutantDoc>,
    outcomes: Option<Document>,
    startedAt: Option<int>,
    recordedAt: Option<int>)

  datatype Plan = Plan(jobsSucceeded: bool, artifactNamesMatch: bool, enumeration: seq<MutantDoc>, shards: seq<Shard>)

  function ShardKeys(s: Shard): set<string> {
    Elements(KeysOfDocs(s.enumeration))
  }

  predicate InWindow(s: Shard)
    requires GoodHeader(s.outcomes)
  {
    && s.startedAt.Some? && s.recordedAt.Some?
    && s.startedAt.value <= s.outcomes.value.start.value
    && s.outcomes.value.end.value <= s.recordedAt.value
  }

  ghost predicate GoodShard(s: Shard) {
    && s.metadataMatches && s.exitCode.Some? && GoodEnumeration(s.enumeration)
    && ValidOutcomes(s.outcomes, ShardKeys(s)) && InWindow(s)
  }

  ghost predicate PairwiseDisjoint(shards: seq<Shard>) {
    forall i, j :: 0 <= i < j < |shards| ==> ShardKeys(shards[i]) !! ShardKeys(shards[j])
  }

  ghost predicate UnionIs(shards: seq<Shard>, whole: set<string>) {
    forall k :: k in whole <==> exists i :: 0 <= i < |shards| && k in ShardKeys(shards[i])
  }

  /** The shard enumerations partition the whole enumeration and every shard is accounted for. */
  ghost predicate ExactCover(plan: Plan) {
    && plan.jobsSucceeded && plan.artifactNamesMatch && GoodEnumeration(plan.enumeration)
    && (forall i :: 0 <= i < |plan.shards| ==> GoodShard(plan.shards[i]))
    && PairwiseDisjoint(plan.shards)
    && UnionIs(plan.shards, Elements(KeysOfDocs(plan.enumeration)))
  }

  function AllKeys(c: Classified): seq<string> {
    c.caught + c.missed + c.timeout + c.unviable
  }

  function Merge(a: Classified, b: Classified): Classified {
    Classified(a.caught + b.caught, a.missed + b.missed, a.timeout + b.timeout, a.unviable + b.unviable)
  }

  function ShardClassification(s: Shard): Classified
    requires GoodHeader(s.outcomes)
  {
    Classification(s.outcomes.value.rows.value, |s.outcomes.value.rows.value|)
  }

  function MergedUpTo(lists: seq<Classified>, n: nat): Classified
    requires n <= |lists|
  {
    if n == 0 then Classified([], [], [], []) else Merge(MergedUpTo(lists, n - 1), lists[n - 1])
  }

  /** How often each key occurs in the first n sets. */
  ghost function Tally(sets: seq<set<string>>, n: nat): multiset<string>
    requires n <= |sets|
  {
    if n == 0 then multiset{} else Tally(sets, n - 1) + multiset(sets[n - 1])
  }

  /** What every shard enumerates. */
  function ShardSets(shards: seq<Shard>): (r: seq<set<string>>)
    ensures |r| == |shards|
    ensures forall i :: 0 <= i < |r| ==> r[i] == ShardKeys(shards[i])
  {
    seq(|shards|, i requires 0 <= i < |shards| => ShardKeys(shards[i]))
  }

  function TotalUpTo(shards: seq<Shard>, n: nat): int
    requires n <= |shards|
  {
    if n == 0 then 0
    else
      var o := shards[n - 1].outcomes;
      TotalUpTo(shards, n - 1) + if o.Some? && o.value.total.Some? then o.value.total.value else 0
  }

  lemma {:induction false} ClassificationStep(rows: seq<Row>, n: nat)
    requires 0 < n <= |rows| && (rows[n - 1].scenario != Baseline ==> SoundRow(rows[n - 1]))
    ensures Classification(rows, n) ==
      if rows[n - 1].scenario == Baseline then Classification(rows, n - 1)
      else Add(Classification(rows, n - 1), rows[n - 1].summary.kind, rows[n - 1].scenario.mutant.key)
  {
  }

  /** The keys of all four lists, with multiplicity. */
  ghost function Bag(c: Classified): multiset<string> {
    multiset(c.caught) + multiset(c.missed) + multiset(c.timeout) + multiset(c.unviable)
  }

  lemma {:induction false} BagOfLists(c: Classified)
    ensures multiset(AllKeys(c)) == Bag(c) && |AllKeys(c)| == |Bag(c)|
  {
    assert |multiset(AllKeys(c))| == |AllKeys(c)|;
  }

  lemma {:induction false} BagOfAdd(c: Classified, kind: Kind, key: string)
    ensures Bag(Add(c, kind, key)) == Bag(c) + multiset{key}
  {
  }

  lemma {:induction false} BagOfMerge(a: Classified, b: Classified)
    ensures Bag(Merge(a, b)) == Bag(a) + Bag(b)
  {
  }

  lemma {:induction false} ClassificationKeepsRows(rows: seq<Row>, n: nat)
    requires n <= |rows| && forall i :: 0 <= i < n && rows[i].scenario != Baseline ==> SoundRow(rows[i])
    ensures Bag(Classification(rows, n)) == multiset(RowKeys(rows, n))
  {
    if n > 0 {
      ClassificationKeepsRows(rows, n - 1);
      ClassificationStep(rows, n);
      if rows[n - 1].scenario == Baseline {
        assert RowKeys(rows, n) == RowKeys(rows, n - 1);
      } else {
        BagOfAdd(Classification(rows, n - 1), rows[n - 1].summary.kind, rows[n - 1].scenario.mutant.key);
        assert RowKeys(rows, n) == RowKeys(rows, n - 1) + [rows[n - 1].scenario.mutant.key];
      }
    }
  }

  lemma {:induction false} DistinctIsSet(keys: seq<string>)
    requires !HasRepeat(keys)
    ensures multiset(keys) == multiset(Elements(keys))
  {
    if keys == [] {
      assert Elements(keys) == {};
    } else {
      var shorter, key := keys[..|keys| - 1], keys[|keys| - 1];
      assert keys == shorter + [key];
      assert !HasRepeat(shorter) by {
        if HasRepeat(shorter) {
          RepeatsGrow(shorter, keys);
        }
      }
      RepeatsAppend(shorter, key);
      DistinctIsSet(shorter);
      ElementsAppend(shorter, key);
    }
  }

  /** The lists of a shard hold its enumeration, and its total is the enumeration's size. */
  ghost predicate Accounted(s: Shard) {
    && GoodHeader(s.outcomes)
    && Bag(ShardClassification(s)) == multiset(ShardKeys(s))
    && s.outcomes.value.total == Some(|ShardKeys(s)|)
  }

  lemma {:induction false} GoodShardIsAccounted(s: Shard)
    requires GoodShard(s)
    ensures Accounted(s)
  {
    var rows := s.outcomes.value.rows.value;
    ClassificationKeepsRows(rows, |rows|);
    DistinctIsSet(RowKeys(rows, |rows|));
  }

  /** The merged lists are, key by key, what the shards enumerate. */
  lemma {:induction false} MergedIsTallied(lists: seq<Classified>, sets: seq<set<string>>, n: nat)
    requires n <= |lists| == |sets| && forall i :: 0 <= i < n ==> Bag(lists[i]) == multiset(sets[i])
    ensures Bag(MergedUpTo(lists, n)) == Tally(sets, n)
  {
    if n > 0 {
      MergedIsTallied(lists, sets, n - 1);
      BagOfMerge(MergedUpTo(lists, n - 1), lists[n - 1]);
    }
  }

  lemma {:induction false} TallySize(shards: seq<Shard>, n: nat)
    requires n <= |shards| && forall i :: 0 <= i < n ==> shards[i].outcomes.Some? && shards[i].outcomes.value.total == Some(|ShardKeys(shards[i])|)
    ensures |Tally(ShardSets(shards), n)| == TotalUpTo(shards, n)
  {
    if n > 0 {
      TallySize(shards, n - 1);
    }
  }

  lemma {:induction false} TallyHas(sets: seq<set<string>>, n: nat, key: string)
    requires n <= |sets|
    ensures key in Tally(sets, n) <==> exists i :: 0 <= i < n && key in sets[i]
    ensures Tally(sets, n)[key] <= 1 <==> forall i, j :: 0 <= i < j < n ==> !(key in sets[i] && key in sets[j])
  {
    if n > 0 {
      TallyHas(sets, n - 1, key);
    }
  }

  /** Counting every key once is the same as the shards being disjoint. */
  lemma {:induction false} CountedOnceIff(shards: seq<Shard>)
    ensures (forall key :: Tally(ShardSets(shards), |shards|)[key] <= 1) <==> PairwiseDisjoint(shards)
  {
    var sets := ShardSets(shards);
    forall key
      ensures Tally(sets, |sets|)[key] <= 1 <==> forall i, j :: 0 <= i < j < |sets| ==> !(key in sets[i] && key in sets[j])
    {
      TallyHas(sets, |sets|, key);
    }
    if forall key :: Tally(sets, |sets|)[key] <= 1 {
      forall i, j | 0 <= i < j < |shards|
        ensures ShardKeys(shards[i]) !! ShardKeys(shards[j])
      {
        forall key
          ensures !(key in sets[i] && key in sets[j])
        {
          assert Tally(sets, |sets|)[key] <= 1;
        }
      }
    }
  }

  lemma {:induction false} UnionIff(shards: seq<Shard>, whole: set<string>)
    ensures (forall key :: key in Tally(ShardSets(shards), |shards|) <==> key in whole) <==> UnionIs(shards, whole)
  {
    var sets := ShardSets(shards);
    forall key
      ensures key in Tally(sets, |sets|) <==> exists i :: 0 <= i < |shards| && key in ShardKeys(shards[i])
    {
      TallyHas(sets, |sets|, key);
    }
  }

  lemma {:induction false} RepeatCountsTwice(keys: seq<string>)
    requires HasRepeat(keys)
    ensures exists key :: multiset(keys)[key] >= 2
  {
    var i, j :| 0 <= i < j < |keys| && keys[i] == keys[j];
    assert keys == keys[..j] + keys[j..];
    assert multiset(keys) == multiset(keys[..j]) + multiset(keys[j..]);
    assert keys[..j][i] == keys[i] && keys[j..][0] == keys[i];
    assert multiset(keys)[keys[i]] >= 2;
  }

  lemma {:induction false} OnceEach(keys: seq<string>)
    requires forall key :: multiset(keys)[key] <= 1
    ensures !HasRepeat(keys)
  {
    if HasRepeat(keys) {
      RepeatCountsTwice(keys);
      assert false;
    }
  }

  /** The two final checks on the merged lists decide whether the shards partition the whole. */
  lemma {:induction false} FinalChecks(shards: seq<Shard>, all: seq<string>, whole: set<string>)
    requires multiset(all) == Tally(ShardSets(shards), |shards|)
    ensures (forall key :: key in all ==> multiset(all)[key] == 1) && Elements(all) == whole
      <==> PairwiseDisjoint(shards) && UnionIs(shards, whole)
    ensures PairwiseDisjoint(shards) ==> !HasRepeat(all)
  {
    CountedOnceIff(shards);
    UnionIff(shards, whole);
    assert forall key :: key in all <==> key in multiset(all);
    assert (forall key :: key in all ==> multiset(all)[key] == 1) <==> (forall key :: multiset(all)[key] <= 1);
    assert Elements(all) == whole <==> (forall key :: key in multiset(all) <==> key in whole);
    if PairwiseDisjoint(shards) {
      OnceEach(all);
    }
  }

  /** The first n shards are good, and these are their classifications. */
  ghost predicate Loaded(shards: seq<Shard>, lists: seq<Classified>, n: nat)
    requires n <= |shards|
  {
    && |lists| == n
    && forall i :: 0 <= i < n ==> Checked(shards[i], lists[i])
  }

  ghost predicate Checked(s: Shard, c: Classified) {
    GoodShard(s) && c == ShardClassification(s)
  }

  lemma {:induction false} LoadedExtends(shards: seq<Shard>, lists: seq<Classified>, more: Classified, n: nat)
    requires n < |shards| && Loaded(shards, lists, n) && Checked(shards[n], more)
    ensures Loaded(shards, lists + [more], n + 1)
  {
  }

  /** The shard loop; `lists` are the classifications it merges. */
  method MergeShards(shards: seq<Shard>) returns (r: Result<Classified, Reject>, ghost lists: seq<Classified>)
    ensures r.Success? <==> forall i :: 0 <= i < |shards| ==> GoodShard(shards[i])
    ensures r.Success? ==> Loaded(shards, lists, |shards|) && r.value == MergedUpTo(lists, |shards|)
  {
    var merged := Classified([], [], [], []);
    lists := [];
    var index := 0;
    while index < |shards|
      invariant index <= |shards| && Loaded(shards, lists, index)
      invariant merged == MergedUpTo(lists, index)
    {
      var classified := CheckShard(shards[index]);
      if classified.Failure? {
        r := Failure(classified.error);
        return;
      }
      MergedExtends(lists, classified.value, index);
      LoadedExtends(shards, lists, classified.value, index);
      merged := Merge(merged, classified.value);
      lists := lists + [classified.value];
      index := index + 1;
    }
    r := Success(merged);
  }

  lemma {:induction false} MergedExtends(lists: seq<Classified>, more: Classified, n: nat)
    requires n <= |lists|
    ensures MergedUpTo(lists + [more], n) == MergedUpTo(lists, n)
  {
    if n > 0 {
      MergedExtends(lists, more, n - 1);
    }
  }

  /** The merged lists hold what the shards enumerate, as often as they do. */
  lemma {:induction false} MergedHoldsTheShards(shards: seq<Shard>, lists: seq<Classified>, merged: Classified)
    requires Loaded(shards, lists, |shards|) && merged == MergedUpTo(lists, |shards|)
    ensures multiset(AllKeys(merged)) == Tally(ShardSets(shards), |shards|)
    ensures |AllKeys(merged)| == TotalUpTo(shards, |shards|)
  {
    forall i | 0 <= i < |shards|
      ensures Accounted(shards[i]) && lists[i] == ShardClassification(shards[i])
    {
      assert Checked(shards[i], lists[i]);
      GoodShardIsAccounted(shards[i]);
    }
    MergedIsTallied(lists, ShardSets(shards), |shards|);
    TallySize(shards, |shards|);
    BagOfLists(merged);
  }

  function ListOf(c: Classified, kind: Kind): seq<string> {
    match kind case Caught => c.caught case Missed => c.missed case Timeout => c.timeout case Unviable => c.unviable
  }

  /** The row is about this mutant, and its phase statuses stand for this outcome. */
  ghost predicate RowGives(row: Row, kind: Kind, key: string) {
    row.scenario.MutantScenario? && row.scenario.mutant.key == key && OutcomeOf(StatusesOf(row.phases)) == Some(kind)
  }

  ghost predicate ShardGives(s: Shard, kind: Kind, key: string) {
    && s.outcomes.Some? && s.outcomes.value.rows.Some?
    && exists i :: 0 <= i < |s.outcomes.value.rows.value| && RowGives(s.outcomes.value.rows.value[i], kind, key)
  }

  lemma {:induction false} KindKeysHas(rows: seq<Row>, kind: Kind, n: nat, key: string)
    requires n <= |rows| && forall i :: 0 <= i < n && rows[i].scenario != Baseline ==> SoundRow(rows[i])
    ensures key in KindKeys(rows, kind, n) <==> exists i :: 0 <= i < n && RowGives(rows[i], kind, key)
  {
    if n > 0 {
      KindKeysHas(rows, kind, n - 1, key);
      var row := rows[n - 1];
      assert RowGives(row, kind, key) <==> row.scenario.MutantScenario? && row.summary == Mutant(kind) && row.scenario.mutant.key == key;
      assert key in KindKeys(rows, kind, n) <==> key in KindKeys(rows, kind, n - 1) || RowGives(row, kind, key);
    }
  }

  lemma {:induction false} GoodShardLists(s: Shard, c: Classified, kind: Kind, key: string)
    requires Checked(s, c)
    ensures key in ListOf(c, kind) <==> ShardGives(s, kind, key)
  {
    var rows := s.outcomes.value.rows.value;
    KindKeysHas(rows, kind, |rows|, key);
  }

  lemma {:induction false} MergeHas(a: Classified, b: Classified, kind: Kind, key: string)
    ensures key in ListOf(Merge(a, b), kind) <==> key in ListOf(a, kind) || key in ListOf(b, kind)
  {
    assert ListOf(Merge(a, b), kind) == ListOf(a, kind) + ListOf(b, kind);
  }

  lemma {:induction false} MergedHas(lists: seq<Classified>, n: nat, kind: Kind, key: string)
    requires n <= |lists|
    ensures key in ListOf(MergedUpTo(lists, n), kind) <==> exists i :: 0 <= i < n && key in ListOf(lists[i], kind)
  {
    if n > 0 {
      MergedHas(lists, n - 1, kind, key);
      MergeHas(MergedUpTo(lists, n - 1), lists[n - 1], kind, key);
    }
  }

  /** A mutant is in the merged list of an outcome exactly if a shard's row gives it that outcome. */
  lemma {:induction false} MergedListIff(shards: seq<Shard>, lists: seq<Classified>, kind: Kind, key: string)
    requires Loaded(shards, lists, |shards|)
    ensures key in ListOf(MergedUpTo(lists, |shards|), kind) <==> exists i :: 0 <= i < |shards| && ShardGives(shards[i], kind, key)
  {
    MergedHas(lists, |shards|, kind, key);
    forall i | 0 <= i < |shards|
      ensures key in ListOf(lists[i], kind) <==> ShardGives(shards[i], kind, key)
    {
      GoodShardLists(shards[i], lists[i], kind, key);
    }
  }

  /** Every mutant is in the list of an outcome exactly if some shard gives it that outcome. */
  ghost predicate SortedByOutcome(shards: seq<Shard>, c: Classified) {
    forall kind, key :: key in ListOf(c, kind) <==> exists i :: 0 <= i < |shards| && ShardGives(shards[i], kind, key)
  }

  lemma {:induction false} MergedIsSorted(shards: seq<Shard>, lists: seq<Classified>, merged: Classified)
    requires Loaded(shards, lists, |shards|) && merged == MergedUpTo(lists, |shards|)
    ensures SortedByOutcome(shards, merged)
  {
    forall kind, key
      ensures key in ListOf(merged, kind) <==> exists i :: 0 <= i < |shards| && ShardGives(shards[i], kind, key)
    {
      MergedListIff(shards, lists, kind, key);
    }
  }

  /** aggregate, up to the scorer: it reaches the scorer exactly when the shards are an exact cover.
      The four merged lists then partition the whole enumeration without repetition, every mutant in
      the list of the outcome that its row's statuses stand for, and their lengths add up to the
      totals the shards report. */
  method Aggregate(plan: Plan) returns (r: Result<Classified, Reject>)
    ensures r.Success? <==> ExactCover(plan)
    ensures r.Success? ==> !HasRepeat(AllKeys(r.value))
    ensures r.Success? ==> Elements(AllKeys(r.value)) == Elements(KeysOfDocs(plan.enumeration))
    ensures r.Success? ==> |AllKeys(r.value)| == |plan.enumeration| == TotalUpTo(plan.shards, |plan.shards|)
    ensures r.Success? ==> SortedByOutcome(plan.shards, r.value)
  {
    if !plan.jobsSucceeded {
      return Failure(ShardJobFailed);
    }
    if !plan.artifactNamesMatch {
      return Failure(ArtifactNames);
    }
    var whole := MutantSet(plan.enumeration);
    if whole.Failure? {
      return Failure(whole.error);
    }
    ghost var lists;
    r, lists := MergeShards(plan.shards);
    if r.Failure? {
      return;
    }
    MergedHoldsTheShards(plan.shards, lists, r.value);
    MergedIsSorted(plan.shards, lists, r.value);
    var all := AllKeys(r.value);
    FinalChecks(plan.shards, all, whole.value);
    if exists key :: key in all && multiset(all)[key] != 1 {
      return Failure(DuplicateAcrossShards);
    }
    if Elements(all) != whole.value {
      return Failure(WholeMismatch);
    }
    DistinctSize(all);
    DistinctSize(KeysOfDocs(plan.enumeration));
  }

  /** The checks the aggregation makes on one shard. */
  method CheckShard(shard: Shard) returns (r: Result<Classified, Reject>)
    ensures r.Success? <==> GoodShard(shard)
    ensures r.Success? ==> Checked(shard, r.value)
  {
    if !shard.metadataMatches {
      return Failure(Metadata);
    }
    if shard.exitCode.None? {
      return Failure(ExitCode);
    }
    var expected := MutantSet(shard.enumeration);
    if expected.Failure? {
      return Failure(expected.error);
    }
    r := VerifyOutcomes(shard.outcomes, expected.value);
    if r.Success? && !InWindow(shard) {
      return Failure(Window);
    }
  }
}
