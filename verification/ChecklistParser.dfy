/**
  The release-checklist parser: it pairs every stable-id marker line with the checklist item line
  that follows it.  A file is the sequence of its lines, numbered from 1.
 */
module ChecklistParser {
  import opened Basics

  const MARKER_OPEN := "<!-- release-check-id: "
  const MARKER_CLOSE := " -->"
  const ENTRY_OPEN := "- [ ] "

  datatype Kind = Marker(id: string) | Entry(summary: string)

  datatype ChecklistItem = ChecklistItem(id: string, line: nat, idLine: nat, summary: string)

  datatype Fault =
    | UnattachedId(id: string)
    | MissingId(line: nat)
    | NoItems
    | DuplicateIds(ids: set<string>)

  predicate IsIdChar(c: char) {
    'A' <= c <= 'Z' || '0' <= c <= '9' || c == '-'
  }

  predicate IsStableId(s: string) {
    s != [] && forall i :: 0 <= i < |s| ==> IsIdChar(s[i])
  }

  /** What stands between the marker's fixed ends, if the line has both. */
  function MarkerBody(line: string): Option<string> {
    if |MARKER_OPEN| + |MARKER_CLOSE| <= |line|
       && line[..|MARKER_OPEN|] == MARKER_OPEN
       && line[|line| - |MARKER_CLOSE|..] == MARKER_CLOSE
    then Some(line[|MARKER_OPEN|..|line| - |MARKER_CLOSE|])
    else None
  }

  /** None for the lines the parser skips. */
  function Classify(line: string): Option<Kind> {
    var body := MarkerBody(line);
    if body.Some? && IsStableId(body.value) then Some(Marker(body.value))
    else if |ENTRY_OPEN| <= |line| && line[..|ENTRY_OPEN|] == ENTRY_OPEN
    then Some(Entry(Strip(line[|ENTRY_OPEN|..])))
    else None
  }

  /** The kind of every line of a file. */
  function Kinds(lines: seq<string>): (r: seq<Option<Kind>>)
    ensures |r| == |lines|
    ensures forall i :: 0 <= i < |r| ==> r[i] == Classify(lines[i])
  {
    seq(|lines|, i requires 0 <= i < |lines| => Classify(lines[i]))
  }

  // ----- the specification: marker and entry lines, in order --------------------------------------

  datatype Event = Event(kind: Kind, line: nat)

  /** The marker and entry lines among the first n lines. */
  function Events(kinds: seq<Option<Kind>>, n: nat): (r: seq<Event>)
    requires n <= |kinds|
    ensures forall k :: 0 <= k < |r| ==> 1 <= r[k].line <= n
  {
    if n == 0 then []
    else
      var kind := kinds[n - 1];
      Events(kinds, n - 1) + if kind.None? then [] else [Event(kind.value, n)]
  }

  lemma {:induction false} EventsGrow(kinds: seq<Option<Kind>>, m: nat, n: nat)
    requires m <= n <= |kinds|
    ensures Events(kinds, m) <= Events(kinds, n)
  {
    if m < n {
      EventsGrow(kinds, m, n - 1);
    }
  }

  lemma {:induction false} EventsAscend(kinds: seq<Option<Kind>>, n: nat, j: nat, k: nat)
    requires n <= |kinds| && j < k < |Events(kinds, n)|
    ensures Events(kinds, n)[j].line < Events(kinds, n)[k].line
  {
    if k < |Events(kinds, n - 1)| {
      EventsAscend(kinds, n - 1, j, k);
    }
  }

  /** The marker and entry lines of a file. */
  function FileEvents(lines: seq<string>): seq<Event> {
    Events(Kinds(lines), |lines|)
  }

  /** The first n events are marker, entry, marker, entry, ... */
  predicate AlternatesUpTo(ev: seq<Event>, n: nat)
    requires n <= |ev|
  {
    forall k :: 0 <= k < n ==> (k % 2 == 0 <==> ev[k].kind.Marker?)
  }

  predicate Alternates(ev: seq<Event>) {
    |ev| % 2 == 0 && AlternatesUpTo(ev, |ev|)
  }

  /** The k-th marker and the k-th entry line, paired. */
  function PairOf(ev: seq<Event>, k: nat): ChecklistItem
    requires 2 * k + 1 < |ev| && AlternatesUpTo(ev, 2 * k + 2)
  {
    ChecklistItem(ev[2 * k].kind.id, ev[2 * k + 1].line, ev[2 * k].line, ev[2 * k + 1].kind.summary)
  }

  function Pairs(ev: seq<Event>): (r: seq<ChecklistItem>)
    requires Alternates(ev)
    ensures 2 * |r| == |ev|
    ensures forall k :: 0 <= k < |r| ==> r[k] == PairOf(ev, k)
  {
    seq(|ev| / 2, k requires 0 <= k < |ev| / 2 => PairOf(ev, k))
  }

  function Ids(items: seq<ChecklistItem>): (r: seq<string>)
    ensures |r| == |items|
    ensures forall k :: 0 <= k < |r| ==> r[k] == items[k].id
  {
    seq(|items|, k requires 0 <= k < |items| => items[k].id)
  }

  ghost predicate WellFormed(ev: seq<Event>) {
    ev != [] && Alternates(ev) && Distinct(Ids(Pairs(ev)))
  }

  /** The parse of a whole file: Some exactly for a well-formed checklist. */
  ghost function Parsed(lines: seq<string>): Option<seq<ChecklistItem>> {
    var ev := FileEvents(lines);
    if WellFormed(ev) then Some(Pairs(ev)) else None
  }

  /** The fault that each kind of rejection stands for. */
  ghost predicate FaultIn(ev: seq<Event>, fault: Fault) {
    match fault
    case UnattachedId(id) =>
      exists k: nat :: k < |ev| && k % 2 == 0 && AlternatesUpTo(ev, k + 1) && ev[k].kind == Marker(id)
        && (k + 1 == |ev| || ev[k + 1].kind.Marker?)
    case MissingId(line) =>
      exists k: nat :: k < |ev| && k % 2 == 0 && AlternatesUpTo(ev, k) && ev[k].kind.Entry? && ev[k].line == line
    case NoItems => ev == []
    case DuplicateIds(ids) =>
      && Alternates(ev) && ids != {}
      && forall id :: id in ids <==> Repeats(Ids(Pairs(ev)), id)
  }

  predicate Repeats(ids: seq<string>, id: string) {
    exists i, j :: 0 <= i < j < |ids| && ids[i] == id && ids[j] == id
  }

  // ----- the parser -------------------------------------------------------------------------------

  /** What the parser has built after reading the events `seen`. */
  ghost predicate Scanned(seen: seq<Event>, items: seq<ChecklistItem>, pending: Option<(string, nat)>) {
    && |seen| == 2 * |items| + (if pending.Some? then 1 else 0)
    && AlternatesUpTo(seen, |seen|)
    && (pending.Some? ==> seen[|seen| - 1] == Event(Marker(pending.value.0), pending.value.1))
    && forall k :: 0 <= k < |items| ==> items[k] == PairOf(seen, k)
  }

  lemma {:induction false} ScanMarker(seen: seq<Event>, items: seq<ChecklistItem>, id: string, line: nat)
    requires Scanned(seen, items, None)
    ensures Scanned(seen + [Event(Marker(id), line)], items, Some((id, line)))
  {
    var next := seen + [Event(Marker(id), line)];
    forall k | 0 <= k < |items|
      ensures items[k] == PairOf(next, k)
    {
      assert items[k] == PairOf(seen, k);
    }
  }

  lemma {:induction false} ScanEntry(seen: seq<Event>, items: seq<ChecklistItem>, pending: (string, nat), summary: string, line: nat)
    requires Scanned(seen, items, Some(pending))
    ensures Scanned(seen + [Event(Entry(summary), line)],
                    items + [ChecklistItem(pending.0, line, pending.1, summary)], None)
  {
    var next := seen + [Event(Entry(summary), line)];
    forall k | 0 <= k < |items|
      ensures items[k] == PairOf(next, k)
    {
      assert items[k] == PairOf(seen, k);
    }
  }

  lemma {:induction false} PendingIsFault(ev: seq<Event>, seen: seq<Event>, items: seq<ChecklistItem>, pending: (string, nat))
    requires seen <= ev && Scanned(seen, items, Some(pending))
    requires seen == ev || ev[|seen|].kind.Marker?
    ensures FaultIn(ev, UnattachedId(pending.0)) && !Alternates(ev)
  {
    assert AlternatesUpTo(ev, |seen| - 1 + 1) && ev[|seen| - 1].kind == Marker(pending.0);
  }

  lemma {:induction false} MissingIsFault(ev: seq<Event>, seen: seq<Event>, items: seq<ChecklistItem>)
    requires seen < ev && Scanned(seen, items, None) && ev[|seen|].kind.Entry?
    ensures FaultIn(ev, MissingId(ev[|seen|].line)) && !Alternates(ev)
  {
    assert AlternatesUpTo(ev, |seen|);
  }

  lemma {:induction false} ScanDone(ev: seq<Event>, items: seq<ChecklistItem>)
    requires Scanned(ev, items, None)
    ensures Alternates(ev) && items == Pairs(ev)
  {
  }

  /** The line loop: it succeeds exactly when the events alternate and then returns their pairs. */
  method PairLines(kinds: seq<Option<Kind>>) returns (r: Result<seq<ChecklistItem>, Fault>)
    ensures r.Success? <==> Alternates(Events(kinds, |kinds|))
    ensures r.Success? ==> r.value == Pairs(Events(kinds, |kinds|))
    ensures r.Failure? ==> FaultIn(Events(kinds, |kinds|), r.error)
  {
    ghost var ev := Events(kinds, |kinds|);
    var items: seq<ChecklistItem> := [];
    var pending: Option<(string, nat)> := None;
    var n := 0;
    while n < |kinds|
      invariant n <= |kinds|
      invariant Scanned(Events(kinds, n), items, pending)
    {
      ghost var seen := Events(kinds, n);
      var kind := kinds[n];
      n := n + 1;
      if kind.Some? {
        assert Events(kinds, n) == seen + [Event(kind.value, n)];
        EventsGrow(kinds, n, |kinds|);
        match kind.value {
          case Marker(id) =>
            if pending.Some? {
              PendingIsFault(ev, seen, items, pending.value);
              return Failure(UnattachedId(pending.value.0));
            }
            ScanMarker(seen, items, id, n);
            pending := Some((id, n));
          case Entry(summary) =>
            if pending.None? {
              MissingIsFault(ev, seen, items);
              return Failure(MissingId(n));
            }
            ScanEntry(seen, items, pending.value, summary, n);
            items := items + [ChecklistItem(pending.value.0, n, pending.value.1, summary)];
            pending := None;
        }
      }
    }
    if pending.Some? {
      PendingIsFault(ev, ev, items, pending.value);
      return Failure(UnattachedId(pending.value.0));
    }
    ScanDone(ev, items);
    return Success(items);
  }

  /** Parsing succeeds if and only if the marker and item lines strictly alternate, start with a
      marker, end with an item, are not empty and carry distinct ids. */
  method LoadChecklistItems(lines: seq<string>) returns (r: Result<seq<ChecklistItem>, Fault>)
    ensures r.Success? <==> Parsed(lines).Some?
    ensures r.Success? ==> r.value == Parsed(lines).value
    ensures r.Failure? ==> FaultIn(FileEvents(lines), r.error)
  {
    r := PairLines(Kinds(lines));
    if r.Failure? {
      return;
    }
    if r.value == [] {
      return Failure(NoItems);
    }
    var ids := Ids(r.value);
    var duplicates := set id | id in ids && Repeats(ids, id);
    RepeatsAreDuplicates(ids, duplicates);
    if duplicates != {} {
      return Failure(DuplicateIds(duplicates));
    }
  }

  lemma {:induction false} RepeatsAreDuplicates(ids: seq<string>, duplicates: set<string>)
    requires duplicates == set id | id in ids && Repeats(ids, id)
    ensures forall id :: id in duplicates <==> Repeats(ids, id)
    ensures duplicates == {} <==> Distinct(ids)
  {
    if i, j :| 0 <= i < j < |ids| && ids[i] == ids[j] {
      assert Repeats(ids, ids[i]);
      assert ids[i] in duplicates;
    } else {
      assert forall id :: !Repeats(ids, id);
    }
  }

  lemma {:induction false} EventLine(kinds: seq<Option<Kind>>, n: nat, k: nat)
    requires n <= |kinds| && k < |Events(kinds, n)|
    ensures kinds[Events(kinds, n)[k].line - 1] == Some(Events(kinds, n)[k].kind)
  {
    if k < |Events(kinds, n - 1)| {
      EventLine(kinds, n - 1, k);
    }
  }

  /** In every parse each marker precedes its item line and the pairs never cross. */
  lemma {:induction false} PairedLinesIncrease(kinds: seq<Option<Kind>>, i: nat, j: nat)
    requires Alternates(Events(kinds, |kinds|)) && i < j < |Pairs(Events(kinds, |kinds|))|
    ensures
      var items := Pairs(Events(kinds, |kinds|));
      1 <= items[i].idLine < items[i].line < items[j].idLine < items[j].line <= |kinds|
  {
    EventsAscend(kinds, |kinds|, 2 * i, 2 * i + 1);
    EventsAscend(kinds, |kinds|, 2 * i + 1, 2 * j);
    EventsAscend(kinds, |kinds|, 2 * j, 2 * j + 1);
  }

  /** Every parsed item reports what its two lines say. */
  lemma {:induction false} PairsQuoteTheFile(kinds: seq<Option<Kind>>, i: nat)
    requires Alternates(Events(kinds, |kinds|)) && i < |Pairs(Events(kinds, |kinds|))|
    ensures
      var item := Pairs(Events(kinds, |kinds|))[i];
      && 1 <= item.idLine <= |kinds| && kinds[item.idLine - 1] == Some(Marker(item.id))
      && 1 <= item.line <= |kinds| && kinds[item.line - 1] == Some(Entry(item.summary))
  {
    EventLine(kinds, |kinds|, 2 * i);
    EventLine(kinds, |kinds|, 2 * i + 1);
  }

  /** A parse loses nothing: every marker line and every entry line of the file is in an item. */
  lemma {:induction false} EveryLineIsPaired(kinds: seq<Option<Kind>>, n: nat)
    requires Alternates(Events(kinds, |kinds|)) && n < |kinds| && kinds[n].Some?
    ensures exists k: nat ::
      k < |Pairs(Events(kinds, |kinds|))| && n + 1 in {Pairs(Events(kinds, |kinds|))[k].idLine, Pairs(Events(kinds, |kinds|))[k].line}
  {
    EventsGrow(kinds, n + 1, |kinds|);
    var ev := Events(kinds, |kinds|);
    var e := |Events(kinds, n)|;
    assert ev[e] == Event(kinds[n].value, n + 1);
    assert Pairs(ev)[e / 2] == PairOf(ev, e / 2);
  }
}
