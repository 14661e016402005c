/**
  The expiry gate of the supply-chain exemptions: every `review-by` promise of the configuration
  file must be read, carry a valid date and not be overdue.

  The TOML decoder's result is an input, next to the raw text of the file.
 */
module ExemptionExpiry {
  import opened Basics

  const TOKEN := "review-by"

  // ----- dates ------------------------------------------------------------------------------------

  datatype Date = Date(year: int, month: int, day: int)

  function Digit(c: char): int {
    c as int - '0' as int
  }

  predicate IsLeap(year: int) {
    year % 4 == 0 && (year % 100 != 0 || year % 400 == 0)
  }

  function DaysIn(year: int, month: int): int {
    if month == 2 then if IsLeap(year) then 29 else 28
    else if month == 4 || month == 6 || month == 9 || month == 11 then 30
    else 31
  }

  predicate ValidDate(d: Date) {
    1 <= d.year <= 9999 && 1 <= d.month <= 12 && 1 <= d.day <= DaysIn(d.year, d.month)
  }

  /** date.fromisoformat on a text of the right shape. */
  function ParseDate(s: string): Option<Date>
    requires DateShape(s)
  {
    var d := Date(Digit(s[0]) * 1000 + Digit(s[1]) * 100 + Digit(s[2]) * 10 + Digit(s[3]),
                  Digit(s[5]) * 10 + Digit(s[6]), Digit(s[8]) * 10 + Digit(s[9]));
    if ValidDate(d) then Some(d) else None
  }

  predicate Before(a: Date, b: Date) {
    a.year < b.year || (a.year == b.year && (a.month < b.month || (a.month == b.month && a.day < b.day)))
  }

  // ----- the pattern: token, colon, white space, date ---------------------------------------------

  /** The first position from i on that holds no white space. */
  function SkipSpace(s: string, i: nat): (j: nat)
    requires i <= |s|
    ensures i <= j <= |s| && (forall k :: i <= k < j ==> IsSpace(s[k])) && (j < |s| ==> !IsSpace(s[j]))
    decreases |s| - i
  {
    if i < |s| && IsSpace(s[i]) then SkipSpace(s, i + 1) else i
  }

  /** The date text of a match at position i. */
  function MatchAt(s: string, i: nat): (r: Option<string>)
    ensures r.Some? ==> OccursAt(s, TOKEN, i) && DateShape(r.value)
  {
    if OccursAt(s, TOKEN, i) && i + 9 < |s| && s[i + 9] == ':' then
      var j := SkipSpace(s, i + 10);
      if j + 10 <= |s| && DateShape(s[j..j + 10]) then Some(s[j..j + 10]) else None
    else None
  }

  /** re.search: the leftmost match at or after i. */
  function Search(s: string, i: nat): (r: Option<nat>)
    ensures r.Some? ==> i <= r.value <= |s| && MatchAt(s, r.value).Some?
    ensures forall k :: i <= k < (if r.Some? then r.value else |s|) ==> MatchAt(s, k).None?
    decreases |s| - i
  {
    if i >= |s| then None
    else if MatchAt(s, i).Some? then Some(i)
    else Search(s, i + 1)
  }

  datatype Review = NoReview | Dated(date: Date) | Malformed(text: string)

  function ReviewAt(s: string, i: nat): Review {
    match MatchAt(s, i)
    case None => NoReview
    case Some(text) =>
      match ParseDate(text)
      case Some(d) => Dated(d)
      case None => Malformed(text)
  }

  function ReviewOf(notes: string): Review {
    match Search(notes, 0)
    case None => NoReview
    case Some(i) => ReviewAt(notes, i)
  }

  // ----- reading the exemptions -------------------------------------------------------------------

  datatype Entry = Entry(version: Option<string>, notes: Option<string>)

  datatype CrateEntries = CrateEntries(crate: string, entries: seq<Entry>)

  datatype Exemption = Exemption(crate: string, version: string, notes: string, review: Review)

  function ReadEntry(crate: string, e: Entry): Exemption {
    var notes := if e.notes.Some? then e.notes.value else "";
    Exemption(crate, if e.version.Some? then e.version.value else "?", notes, ReviewOf(notes))
  }

  function ReadCrate(c: CrateEntries): (r: seq<Exemption>)
    ensures |r| == |c.entries|
    ensures forall k :: 0 <= k < |r| ==> r[k] == ReadEntry(c.crate, c.entries[k])
  {
    seq(|c.entries|, k requires 0 <= k < |c.entries| => ReadEntry(c.crate, c.entries[k]))
  }

  function ReadAll(crates: seq<CrateEntries>, n: nat): (r: seq<Exemption>)
    requires n <= |crates|
    ensures forall k :: 0 <= k < |r| ==> r[k].review == ReviewOf(r[k].notes)
  {
    if n == 0 then [] else ReadAll(crates, n - 1) + ReadCrate(crates[n - 1])
  }

  method ParseExemptions(crates: seq<CrateEntries>) returns (exemptions: seq<Exemption>)
    ensures exemptions == ReadAll(crates, |crates|)
  {
    exemptions := [];
    for c := 0 to |crates|
      invariant exemptions == ReadAll(crates, c)
    {
      ghost var before := exemptions;
      var entries := crates[c].entries;
      for e := 0 to |entries|
        invariant exemptions == before + ReadCrate(crates[c])[..e]
      {
        assert ReadCrate(crates[c])[..e + 1] == ReadCrate(crates[c])[..e] + [ReadEntry(crates[c].crate, entries[e])];
        exemptions := exemptions + [ReadEntry(crates[c].crate, entries[e])];
      }
      assert ReadCrate(crates[c])[..|entries|] == ReadCrate(crates[c]);
    }
  }

  /** A line of the deny file; the case of the token does not matter there. */
  function DenyEntry(line: string, number: nat): Option<Exemption> {
    var review := ReviewOf(Lower(line));
    if review == NoReview then None else Some(Exemption("deny.toml", "L" + Decimal(number), Strip(line), review))
  }

  /** The dated promises in the comments of the deny file. */
  function DenyEntries(lines: seq<string>, n: nat): seq<Exemption>
    requires n <= |lines|
  {
    if n == 0 then []
    else
      var last := DenyEntry(lines[n - 1], n);
      DenyEntries(lines, n - 1) + if last.Some? then [last.value] else []
  }

  /** Every line with a dated promise has its entry. */
  lemma {:induction false} DenyLineIsListed(lines: seq<string>, n: nat, i: nat)
    requires i < n <= |lines| && ReviewOf(Lower(lines[i])) != NoReview
    ensures HasReview(DenyEntries(lines, n), ReviewOf(Lower(lines[i])))
  {
    var last := DenyEntry(lines[n - 1], n);
    var more := if last.Some? then [last.value] else [];
    if i == n - 1 {
      assert more[0].review == ReviewOf(Lower(lines[i]));
    } else {
      DenyLineIsListed(lines, n - 1, i);
    }
    HasReviewGrows(DenyEntries(lines, n - 1), more, ReviewOf(Lower(lines[i])));
  }

  ghost predicate HasReview(entries: seq<Exemption>, review: Review) {
    exists k :: 0 <= k < |entries| && entries[k].review == review
  }

  lemma {:induction false} HasReviewGrows(a: seq<Exemption>, b: seq<Exemption>, review: Review)
    ensures HasReview(a, review) || HasReview(b, review) ==> HasReview(a + b, review)
  {
    if k :| 0 <= k < |a| && a[k].review == review {
      assert (a + b)[k] == a[k];
    }
    if k :| 0 <= k < |b| && b[k].review == review {
      assert (a + b)[|a| + k] == b[k];
    }
  }

  method ScanDenyReviewBy(lines: seq<string>) returns (entries: seq<Exemption>)
    ensures entries == DenyEntries(lines, |lines|)
  {
    entries := [];
    for n := 0 to |lines|
      invariant entries == DenyEntries(lines, n)
    {
      var found := DenyEntry(lines[n], n + 1);
      if found.Some? {
        entries := entries + [found.value];
      }
    }
  }

  // ----- counting tokens --------------------------------------------------------------------------

  /** str.count: occurrences found left to right without overlap. */
  function CountTokens(s: string, i: nat): nat
    requires i <= |s|
    decreases |s| - i
  {
    if i + |TOKEN| > |s| then 0
    else if OccursAt(s, TOKEN, i) then 1 + CountTokens(s, i + |TOKEN|)
    else CountTokens(s, i + 1)
  }

  /** Where the token occurs. */
  ghost function Tokens(s: string, lo: nat): set<nat> {
    set i: nat | lo <= i < |s| && OccursAt(s, TOKEN, i)
  }

  /** The token starts with its only 'r', so two occurrences never overlap. */
  lemma {:induction false} TokensDoNotOverlap(s: string, i: nat, j: nat)
    requires i < j && OccursAt(s, TOKEN, i) && OccursAt(s, TOKEN, j)
    ensures i + |TOKEN| <= j
  {
    assert s[j] == s[j..j + |TOKEN|][0] == 'r';
    assert forall d :: 0 < d < |TOKEN| ==> s[i + d] == s[i..i + |TOKEN|][d] == TOKEN[d];
  }

  /** Counting without overlap counts every occurrence. */
  lemma {:induction false} CountIsAllTokens(s: string, i: nat)
    requires i <= |s|
    ensures CountTokens(s, i) == |Tokens(s, i)|
    decreases |s| - i
  {
    if i + |TOKEN| > |s| {
      assert Tokens(s, i) == {};
    } else if OccursAt(s, TOKEN, i) {
      CountIsAllTokens(s, i + |TOKEN|);
      forall j: nat | j in Tokens(s, i) && j != i
        ensures j in Tokens(s, i + |TOKEN|)
      {
        TokensDoNotOverlap(s, i, j);
      }
      assert Tokens(s, i) == {i} + Tokens(s, i + |TOKEN|);
    } else {
      CountIsAllTokens(s, i + 1);
      assert Tokens(s, i) == Tokens(s, i + 1);
    }
  }

  // ----- the gate ---------------------------------------------------------------------------------

  function ParsedCount(exemptions: seq<Exemption>, n: nat): nat
    requires n <= |exemptions|
  {
    if n == 0 then 0 else ParsedCount(exemptions, n - 1) + if exemptions[n - 1].review != NoReview then 1 else 0
  }

  /** assert_parse_coverage */
  predicate Covered(raw: string, exemptions: seq<Exemption>) {
    ParsedCount(exemptions, |exemptions|) == CountTokens(raw, 0)
  }

  datatype Config = Config(raw: string, crates: seq<CrateEntries>)

  datatype DenyArgument = NotGiven | NotFound | Found(lines: seq<string>)

  datatype GateResult = ExitCode(code: nat) | CoverageMismatch

  predicate SomeMalformed(exemptions: seq<Exemption>) {
    exists k :: 0 <= k < |exemptions| && exemptions[k].review.Malformed?
  }

  predicate SomeExpired(exemptions: seq<Exemption>, today: Date) {
    exists k :: 0 <= k < |exemptions| && exemptions[k].review.Dated? && Before(exemptions[k].review.date, today)
  }

  function Examined(config: Config, deny: DenyArgument): seq<Exemption> {
    ReadAll(config.crates, |config.crates|) + if deny.Found? then DenyEntries(deny.lines, |deny.lines|) else []
  }

  /** The gate passes exactly when the files exist, every token was read and, under
      --fail-on-expired, no promise is malformed or overdue. */
  method RunGate(config: Option<Config>, deny: DenyArgument, failOnExpired: bool, today: Date) returns (r: GateResult)
    ensures r == ExitCode(0) <==>
      && config.Some? && !deny.NotFound?
      && Covered(config.value.raw, ReadAll(config.value.crates, |config.value.crates|))
      && (failOnExpired ==> !SomeMalformed(Examined(config.value, deny)) && !SomeExpired(Examined(config.value, deny), today))
    ensures r == CoverageMismatch <==>
      config.Some? && !Covered(config.value.raw, ReadAll(config.value.crates, |config.value.crates|))
  {
    if config.None? {
      return ExitCode(1);
    }
    var exemptions := ParseExemptions(config.value.crates);
    if !Covered(config.value.raw, exemptions) {
      return CoverageMismatch;
    }
    if deny.NotFound? {
      return ExitCode(1);
    }
    if deny.Found? {
      var denyEntries := ScanDenyReviewBy(deny.lines);
      exemptions := exemptions + denyEntries;
    }
    assert exemptions == Examined(config.value, deny);
    var gateFailed := false;
    if SomeMalformed(exemptions) && failOnExpired {
      gateFailed := true;
    }
    if SomeExpired(exemptions, today) && failOnExpired {
      gateFailed := true;
    }
    return ExitCode(if gateFailed then 1 else 0);
  }

  // ----- coverage by counting ---------------------------------------------------------------------

  ghost predicate Parsed(exemptions: seq<Exemption>) {
    forall k :: 0 <= k < |exemptions| ==> exemptions[k].review == ReviewOf(exemptions[k].notes)
  }

  /**
    Some of the entries with a promise are placed, each on a token of its own in the raw text that
    carries the same promise. Other entries, and promises written with escapes, have no place.
   */
  ghost predicate Placing(raw: string, exemptions: seq<Exemption>, at: seq<Option<nat>>) {
    && |at| == |exemptions|
    && (forall k :: 0 <= k < |at| && at[k].Some? ==>
          exemptions[k].review != NoReview && at[k].value in Tokens(raw, 0) && ReviewAt(raw, at[k].value) == exemptions[k].review)
    && (forall k, l :: 0 <= k < l < |at| && at[k].Some? ==> at[k] != at[l])
  }

  /** Every entry with a promise is placed. */
  ghost predicate Complete(exemptions: seq<Exemption>, at: seq<Option<nat>>) {
    |at| == |exemptions| && forall k :: 0 <= k < |at| && exemptions[k].review != NoReview ==> at[k].Some?
  }

  ghost function Places(at: seq<Option<nat>>, n: nat): set<nat>
    requires n <= |at|
  {
    set k | 0 <= k < n && at[k].Some? :: at[k].value
  }

  /** How many of the first n entries have a promise and no place. */
  ghost function Unplaced(exemptions: seq<Exemption>, at: seq<Option<nat>>, n: nat): nat
    requires n <= |at| == |exemptions|
  {
    if n == 0 then 0 else Unplaced(exemptions, at, n - 1) + if exemptions[n - 1].review != NoReview && at[n - 1].None? then 1 else 0
  }

  /** The places and the unplaced promises make up the promises that were counted. */
  lemma {:induction false} PlacesSize(exemptions: seq<Exemption>, at: seq<Option<nat>>, n: nat)
    requires n <= |at| == |exemptions| && (forall k :: 0 <= k < n && at[k].Some? ==> exemptions[k].review != NoReview)
    requires forall k, l :: 0 <= k < l < n && at[k].Some? ==> at[k] != at[l]
    ensures |Places(at, n)| + Unplaced(exemptions, at, n) == ParsedCount(exemptions, n)
  {
    if n > 0 {
      PlacesSize(exemptions, at, n - 1);
      var before := Places(at, n - 1);
      if at[n - 1].None? {
        assert Places(at, n) == before;
      } else {
        assert Places(at, n) == before + {at[n - 1].value};
        assert at[n - 1].value !in before;
      }
    }
  }

  lemma {:induction false} NothingUnplacedIff(exemptions: seq<Exemption>, at: seq<Option<nat>>, n: nat)
    requires n <= |at| == |exemptions|
    ensures Unplaced(exemptions, at, n) == 0 <==> forall k :: 0 <= k < n && exemptions[k].review != NoReview ==> at[k].Some?
  {
    if n > 0 {
      NothingUnplacedIff(exemptions, at, n - 1);
    }
  }

  /** A match inside a segment is the same match in the whole text. */
  lemma {:induction false} MatchInSegment(raw: string, notes: string, lo: nat, i: nat)
    requires OccursAt(raw, notes, lo) && MatchAt(notes, i).Some?
    ensures MatchAt(raw, lo + i) == MatchAt(notes, i)
  {
    var j := SkipSpace(notes, i + 10);
    SamePiece(raw, notes, lo, i, i + 9);
    SamePiece(raw, notes, lo, i + 9, i + 10);
    assert raw[lo + i + 9] == raw[lo + i + 9..lo + i + 10][0] == notes[i + 9..i + 10][0];
    SpaceInSegment(raw, notes, lo, i + 10);
    SamePiece(raw, notes, lo, j, j + 10);
  }

  lemma {:induction false} SamePiece(raw: string, notes: string, lo: nat, i: nat, j: nat)
    requires OccursAt(raw, notes, lo) && i <= j <= |notes|
    ensures raw[lo + i..lo + j] == notes[i..j]
  {
    assert forall k :: lo <= k < lo + |notes| ==> raw[k] == raw[lo..lo + |notes|][k - lo];
  }

  lemma {:induction false} SpaceInSegment(raw: string, notes: string, lo: nat, i: nat)
    requires OccursAt(raw, notes, lo) && i <= |notes| && SkipSpace(notes, i) < |notes|
    ensures SkipSpace(raw, lo + i) == lo + SkipSpace(notes, i)
  {
    assert forall k :: lo <= k < lo + |notes| ==> raw[k] == raw[lo..lo + |notes|][k - lo] == notes[k - lo];
    SkipSpaceIs(raw, lo + i, lo + SkipSpace(notes, i));
  }

  lemma {:induction false} SkipSpaceIs(s: string, i: nat, j: nat)
    requires i <= j < |s| && (forall k :: i <= k < j ==> IsSpace(s[k])) && !IsSpace(s[j])
    ensures SkipSpace(s, i) == j
    decreases j - i
  {
    if i < j {
      SkipSpaceIs(s, i + 1, j);
    }
  }

  lemma {:induction false} SubsetSize<T>(a: set<T>, b: set<T>)
    requires a <= b
    ensures |b - a| == |b| - |a| && (a == b <==> |a| == |b|)
  {
    assert b == a + (b - a);
  }

  /**
    Coverage by counting. When the counts agree, the tokens without an entry are as many as the
    promises without a place. So the tokens of the file are the places of the entries, every token
    that of one entry and none elsewhere, if and only if every promise has its place.
   */
  lemma {:induction false} CoverageByCounting(raw: string, exemptions: seq<Exemption>, at: seq<Option<nat>>)
    requires Placing(raw, exemptions, at)
    ensures Places(at, |at|) <= Tokens(raw, 0)
    ensures Covered(raw, exemptions) ==> |Tokens(raw, 0) - Places(at, |at|)| == Unplaced(exemptions, at, |at|)
    ensures Covered(raw, exemptions) ==> (Tokens(raw, 0) == Places(at, |at|) <==> Complete(exemptions, at))
    ensures Complete(exemptions, at) ==> (Covered(raw, exemptions) <==> Tokens(raw, 0) == Places(at, |at|))
  {
    CountIsAllTokens(raw, 0);
    PlacesSize(exemptions, at, |at|);
    NothingUnplacedIff(exemptions, at, |at|);
    SubsetSize(Places(at, |at|), Tokens(raw, 0));
  }

  /** Equal counts mean that the entries were read from all the tokens exactly when every promise can
      be placed. */
  lemma {:induction false} CountsCoverIff(raw: string, exemptions: seq<Exemption>)
    requires Covered(raw, exemptions)
    ensures (exists at :: Placing(raw, exemptions, at) && Tokens(raw, 0) == Places(at, |at|)) <==>
      exists at :: Placing(raw, exemptions, at) && Complete(exemptions, at)
  {
    if at :| Placing(raw, exemptions, at) && Tokens(raw, 0) == Places(at, |at|) {
      CoverageByCounting(raw, exemptions, at);
    }
    if at :| Placing(raw, exemptions, at) && Complete(exemptions, at) {
      CoverageByCounting(raw, exemptions, at);
    }
  }

  /** In a covered file with every promise placed, every token was read by some entry. */
  lemma {:induction false} ReaderOf(raw: string, exemptions: seq<Exemption>, at: seq<Option<nat>>, p: nat) returns (k: nat)
    requires Placing(raw, exemptions, at) && Complete(exemptions, at) && Covered(raw, exemptions)
    requires p in Tokens(raw, 0)
    ensures k < |at| && at[k] == Some(p) && ReviewAt(raw, p) == exemptions[k].review != NoReview
  {
    CoverageByCounting(raw, exemptions, at);
    assert p in Places(at, |at|);
    k :| 0 <= k < |at| && at[k].Some? && at[k].value == p;
  }

  /** The stretch of the raw text in which the notes of an entry are written, escapes and all. */
  datatype Span = Span(lo: nat, hi: nat)

  ghost predicate Written(at: seq<Option<nat>>, spans: seq<Span>) {
    && |spans| == |at|
    && (forall k :: 0 <= k < |at| && at[k].Some? ==> spans[k].lo <= at[k].value < spans[k].hi)
    && (forall k, l :: 0 <= k < l < |spans| ==> spans[k].hi <= spans[l].lo || spans[l].hi <= spans[k].lo)
  }

  /** There no notes hold two tokens, and the one they hold is that of the entry's promise. */
  lemma {:induction false} OneTokenForEachEntry(raw: string, exemptions: seq<Exemption>, at: seq<Option<nat>>, spans: seq<Span>, k: nat, p: nat)
    requires Placing(raw, exemptions, at) && Complete(exemptions, at) && Covered(raw, exemptions) && Written(at, spans)
    requires k < |at| && p in Tokens(raw, 0) && spans[k].lo <= p < spans[k].hi
    ensures at[k] == Some(p) && exemptions[k].review == ReviewAt(raw, p)
  {
    var reader := ReaderOf(raw, exemptions, at, p);
    assert reader == k;
  }

  // ----- promises that stand literally in the text ------------------------------------------------

  /** The text of the promise that was read: token, colon, white space, date. */
  ghost function PromiseOf(notes: string): string {
    var found := Search(notes, 0);
    if found.None? then "" else
      var i := found.value;
      var j := SkipSpace(notes, i + 10);
      notes[i..j + 10]
  }

  lemma {:induction false} PromiseMatches(notes: string)
    requires Search(notes, 0).Some?
    ensures MatchAt(PromiseOf(notes), 0) == MatchAt(notes, Search(notes, 0).value) && MatchAt(PromiseOf(notes), 0).Some?
  {
    var i := Search(notes, 0).value;
    CutMatches(notes, i, SkipSpace(notes, i + 10), PromiseOf(notes));
  }

  /** The text of a match, cut out, is a match. */
  lemma {:induction false} CutMatches(s: string, i: nat, j: nat, t: string)
    requires MatchAt(s, i).Some? && j == SkipSpace(s, i + 10) && t == s[i..j + 10]
    ensures MatchAt(t, 0) == MatchAt(s, i)
  {
    CutPiece(s, t, i, j + 10, 0, 9);
    CutPiece(s, t, i, j + 10, j - i, j - i + 10);
    CutSpace(s, i, j, t);
  }

  lemma {:induction false} CutSpace(s: string, i: nat, j: nat, t: string)
    requires i + 10 <= j && j + 10 <= |s| && j == SkipSpace(s, i + 10) && t == s[i..j + 10]
    ensures SkipSpace(t, 10) == j - i
  {
    assert forall k :: 0 <= k < |t| ==> t[k] == s[i + k];
    assert t[j - i] == s[j];
    SkipSpaceIs(t, 10, j - i);
  }

  lemma {:induction false} CutPiece(s: string, t: string, lo: nat, hi: nat, a: nat, b: nat)
    requires lo <= hi <= |s| && t == s[lo..hi] && a <= b <= |t|
    ensures t[a..b] == s[lo + a..lo + b]
  {
    forall k | 0 <= k < b - a
      ensures t[a..b][k] == s[lo + a..lo + b][k]
    {
      assert t[a + k] == s[lo + a + k];
    }
  }

  /** Every promise stands literally in the raw text, each at a place of its own; the rest of the
      notes may be written in any way. */
  ghost predicate LiteralPromises(raw: string, exemptions: seq<Exemption>, at: seq<Option<nat>>) {
    && |at| == |exemptions|
    && (forall k :: 0 <= k < |at| ==> (at[k].Some? <==> exemptions[k].review != NoReview))
    && (forall k :: 0 <= k < |at| && at[k].Some? ==> OccursAt(raw, PromiseOf(exemptions[k].notes), at[k].value))
    && (forall k, l :: 0 <= k < l < |at| && at[k].Some? ==> at[k] != at[l])
  }

  /** Literal promises have their places: only an escape inside a promise hides it from the count. */
  lemma {:induction false} LiteralPromisesArePlaced(raw: string, exemptions: seq<Exemption>, at: seq<Option<nat>>)
    requires Parsed(exemptions) && LiteralPromises(raw, exemptions, at)
    ensures Placing(raw, exemptions, at) && Complete(exemptions, at)
  {
    forall k | 0 <= k < |at| && at[k].Some?
      ensures at[k].value in Tokens(raw, 0) && ReviewAt(raw, at[k].value) == exemptions[k].review
    {
      LiteralPromiseIsRead(raw, exemptions[k].notes, at[k].value);
    }
  }

  lemma {:induction false} LiteralPromiseIsRead(raw: string, notes: string, p: nat)
    requires ReviewOf(notes) != NoReview && OccursAt(raw, PromiseOf(notes), p)
    ensures p in Tokens(raw, 0) && ReviewAt(raw, p) == ReviewOf(notes)
  {
    PromiseMatches(notes);
    MatchInSegment(raw, PromiseOf(notes), p, 0);
  }

  predicate NotOverdue(r: Review, today: Date) {
    r.Dated? && ValidDate(r.date) && !Before(r.date, today)
  }

  /** What the gate asks of its inputs before it exits with 0 under --fail-on-expired. */
  ghost predicate GatePasses(config: Config, deny: DenyArgument, today: Date) {
    && Covered(config.raw, ReadAll(config.crates, |config.crates|))
    && !SomeMalformed(Examined(config, deny)) && !SomeExpired(Examined(config, deny), today)
  }

  lemma {:induction false} DatedIsValid(s: string, i: nat)
    ensures ReviewAt(s, i).Dated? ==> ValidDate(ReviewAt(s, i).date)
  {
  }

  /**
    Exit 0 under --fail-on-expired: every token that an entry is placed on carries a valid date that
    has not passed, and so does every line of the deny file with a date. The other tokens are as many
    as the promises without a place: none when every promise has one.
   */
  lemma {:induction false} PassMeansNothingOverdue(config: Config, deny: DenyArgument, today: Date, at: seq<Option<nat>>)
    requires Placing(config.raw, ReadAll(config.crates, |config.crates|), at)
    requires GatePasses(config, deny, today)
    ensures forall p :: p in Places(at, |at|) ==> NotOverdue(ReviewAt(config.raw, p), today)
    ensures |Tokens(config.raw, 0) - Places(at, |at|)| == Unplaced(ReadAll(config.crates, |config.crates|), at, |at|)
    ensures Complete(ReadAll(config.crates, |config.crates|), at) ==>
      forall p :: p in Tokens(config.raw, 0) ==> NotOverdue(ReviewAt(config.raw, p), today)
    ensures deny.Found? ==> forall i :: 0 <= i < |deny.lines| && ReviewOf(Lower(deny.lines[i])) != NoReview ==>
      NotOverdue(ReviewOf(Lower(deny.lines[i])), today)
  {
    var exemptions := ReadAll(config.crates, |config.crates|);
    CoverageByCounting(config.raw, exemptions, at);
    forall p | p in Places(at, |at|)
      ensures NotOverdue(ReviewAt(config.raw, p), today)
    {
      var k :| 0 <= k < |at| && at[k].Some? && at[k].value == p;
      assert Examined(config, deny)[k] == exemptions[k];
      DatedIsValid(config.raw, p);
    }
    if deny.Found? {
      forall i | 0 <= i < |deny.lines| && ReviewOf(Lower(deny.lines[i])) != NoReview
        ensures NotOverdue(ReviewOf(Lower(deny.lines[i])), today)
      {
        DenyLinePasses(config, deny, today, i);
      }
    }
  }

  lemma {:induction false} DenyLinePasses(config: Config, deny: DenyArgument, today: Date, i: nat)
    requires deny.Found? && i < |deny.lines| && ReviewOf(Lower(deny.lines[i])) != NoReview
    requires GatePasses(config, deny, today)
    ensures NotOverdue(ReviewOf(Lower(deny.lines[i])), today)
  {
    var entries := DenyEntries(deny.lines, |deny.lines|);
    DenyLineIsListed(deny.lines, |deny.lines|, i);
    var k :| 0 <= k < |entries| && entries[k].review == ReviewOf(Lower(deny.lines[i]));
    TailPasses(ReadAll(config.crates, |config.crates|), entries, today, k);
    ReviewIsValid(Lower(deny.lines[i]));
  }

  lemma {:induction false} TailPasses(a: seq<Exemption>, b: seq<Exemption>, today: Date, k: nat)
    requires k < |b| && b[k].review != NoReview && !SomeMalformed(a + b) && !SomeExpired(a + b, today)
    ensures b[k].review.Dated? && !Before(b[k].review.date, today)
  {
    assert (a + b)[|a| + k] == b[k];
  }

  lemma {:induction false} ReviewIsValid(notes: string)
    ensures ReviewOf(notes).Dated? ==> ValidDate(ReviewOf(notes).date)
  {
  }

  /** A dated promise stands at p: the line may hold several, the scan reads the first. */
  ghost predicate PromiseAt(line: string, p: nat) {
    MatchAt(Lower(line), p).Some?
  }

  ghost predicate Unread(line: string, p: nat) {
    PromiseAt(line, p) && Search(Lower(line), 0) != Some(p)
  }

  /** A promise on the line is either the one that was read or an unread one. */
  lemma {:induction false} ReadPromise(line: string, p: nat)
    requires PromiseAt(line, p) && !Unread(line, p)
    ensures ReviewAt(Lower(line), p) == ReviewOf(Lower(line)) != NoReview
  {
  }

  /**
    A passing gate covers every dated promise of the deny file if and only if no second promise on a
    line is invalid or overdue: those are the ones it does not read.
   */
  lemma {:induction false} DenyFileCoveredIff(config: Config, deny: DenyArgument, today: Date)
    requires deny.Found? && GatePasses(config, deny, today)
    ensures
      (forall i, p: nat :: 0 <= i < |deny.lines| && PromiseAt(deny.lines[i], p) ==> NotOverdue(ReviewAt(Lower(deny.lines[i]), p), today)) <==>
      (forall i, p: nat :: 0 <= i < |deny.lines| && Unread(deny.lines[i], p) ==> NotOverdue(ReviewAt(Lower(deny.lines[i]), p), today))
  {
    forall i, p: nat | 0 <= i < |deny.lines| && PromiseAt(deny.lines[i], p) && !Unread(deny.lines[i], p)
      ensures NotOverdue(ReviewAt(Lower(deny.lines[i]), p), today)
    {
      ReadPromise(deny.lines[i], p);
      DenyLinePasses(config, deny, today, i);
    }
  }

  lemma {:induction false} DatesAreOrdered(a: Date, b: Date, c: Date)
    ensures !Before(a, b) && !Before(b, c) ==> !Before(a, c)
    ensures !Before(a, b) || !Before(b, a)
  {
  }

  /** Some entry with a date has the earliest. */
  lemma {:induction false} EarliestOf(entries: seq<Exemption>, n: nat) returns (k: nat)
    requires n <= |entries| && exists i :: 0 <= i < n && entries[i].review.Dated?
    ensures k < n && entries[k].review.Dated?
    ensures forall i :: 0 <= i < n && entries[i].review.Dated? ==> !Before(entries[i].review.date, entries[k].review.date)
  {
    if exists i :: 0 <= i < n - 1 && entries[i].review.Dated? {
      k := EarliestOf(entries, n - 1);
      var last := entries[n - 1].review;
      if last.Dated? && Before(last.date, entries[k].review.date) {
        forall i | 0 <= i < n - 1 && entries[i].review.Dated?
          ensures !Before(entries[i].review.date, last.date)
        {
          DatesAreOrdered(entries[i].review.date, entries[k].review.date, last.date);
        }
        k := n - 1;
      }
    } else {
      k := n - 1;
    }
  }

  /** An unread promise that falls due no earlier than some date the gate reads. */
  ghost predicate Sheltered(r: Review, entries: seq<Exemption>) {
    r.Dated? && exists k :: 0 <= k < |entries| && entries[k].review.Dated? && !Before(r.date, entries[k].review.date)
  }

  ghost predicate DenyPromisesKept(deny: DenyArgument, today: Date)
    requires deny.Found?
  {
    forall i, p: nat :: 0 <= i < |deny.lines| && PromiseAt(deny.lines[i], p) ==> NotOverdue(ReviewAt(Lower(deny.lines[i]), p), today)
  }

  ghost predicate UnreadSheltered(deny: DenyArgument, entries: seq<Exemption>)
    requires deny.Found?
  {
    forall i, p: nat :: 0 <= i < |deny.lines| && Unread(deny.lines[i], p) ==> Sheltered(ReviewAt(Lower(deny.lines[i]), p), entries)
  }

  /** A sheltered promise is kept on every day on which the gate passes. */
  lemma {:induction false} ShelteredIsKept(r: Review, entries: seq<Exemption>, today: Date)
    requires Sheltered(r, entries) && !SomeExpired(entries, today) && ValidDate(r.date)
    ensures NotOverdue(r, today)
  {
    var k :| 0 <= k < |entries| && entries[k].review.Dated? && !Before(r.date, entries[k].review.date);
    DatesAreOrdered(r.date, entries[k].review.date, today);
  }

  /** The first promise of a line with an unread one was read. */
  lemma {:induction false} UnreadHasFirst(line: string, p: nat)
    requires PromiseAt(line, p)
    ensures ReviewOf(Lower(line)) != NoReview
  {
    var s := Lower(line);
    assert OccursAt(s, TOKEN, p) && p < |s|;
    assert Search(s, 0).Some?;
  }

  lemma {:induction false} NothingExpiresBefore(entries: seq<Exemption>, k: nat)
    requires k < |entries| && entries[k].review.Dated?
    requires forall i :: 0 <= i < |entries| && entries[i].review.Dated? ==> !Before(entries[i].review.date, entries[k].review.date)
    ensures !SomeExpired(entries, entries[k].review.date)
  {
  }

  /** A promise on a deny line means that the gate reads some date. */
  lemma {:induction false} SomeDateIsRead(a: seq<Exemption>, lines: seq<string>, line: nat, p: nat)
    requires line < |lines| && PromiseAt(lines[line], p) && !SomeMalformed(a + DenyEntries(lines, |lines|))
    ensures exists i :: 0 <= i < |a + DenyEntries(lines, |lines|)| && (a + DenyEntries(lines, |lines|))[i].review.Dated?
  {
    UnreadHasFirst(lines[line], p);
    DenyLineIsListed(lines, |lines|, line);
    TailHasDate(a, DenyEntries(lines, |lines|), ReviewOf(Lower(lines[line])));
  }

  lemma {:induction false} TailHasDate(a: seq<Exemption>, b: seq<Exemption>, review: Review)
    requires HasReview(b, review) && review != NoReview && !SomeMalformed(a + b)
    ensures exists i :: 0 <= i < |a + b| && (a + b)[i].review.Dated?
  {
    var l :| 0 <= l < |b| && b[l].review == review;
    assert (a + b)[|a| + l] == b[l];
  }

  /** On the earliest date that the gate reads it still passes. */
  lemma {:induction false} EarliestDayPasses(config: Config, deny: DenyArgument, line: nat, p: nat) returns (today: Date, k: nat)
    requires deny.Found? && line < |deny.lines| && PromiseAt(deny.lines[line], p)
    requires Covered(config.raw, ReadAll(config.crates, |config.crates|)) && !SomeMalformed(Examined(config, deny))
    ensures GatePasses(config, deny, today)
    ensures k < |Examined(config, deny)| && Examined(config, deny)[k].review == Dated(today)
  {
    var all := Examined(config, deny);
    SomeDateIsRead(ReadAll(config.crates, |config.crates|), deny.lines, line, p);
    k := EarliestOf(all, |all|);
    NothingExpiresBefore(all, k);
    today := all[k].review.date;
  }

  /**
    When no malformed date is read, a passing gate covers every dated promise of the deny file on
    every day if and only if every unread promise has a valid date, not before the earliest date that
    the gate reads.
   */
  lemma {:induction false} DenyFileCoveredEveryDayIff(config: Config, deny: DenyArgument)
    requires deny.Found? && Covered(config.raw, ReadAll(config.crates, |config.crates|)) && !SomeMalformed(Examined(config, deny))
    ensures (forall today: Date :: GatePasses(config, deny, today) ==> DenyPromisesKept(deny, today)) <==>
      UnreadSheltered(deny, Examined(config, deny))
  {
    var all := Examined(config, deny);
    if UnreadSheltered(deny, all) {
      forall today: Date | GatePasses(config, deny, today)
        ensures DenyPromisesKept(deny, today)
      {
        ShelteredFileIsKept(config, deny, today);
      }
    }
    if forall today: Date :: GatePasses(config, deny, today) ==> DenyPromisesKept(deny, today) {
      forall i, p: nat | 0 <= i < |deny.lines| && Unread(deny.lines[i], p)
        ensures Sheltered(ReviewAt(Lower(deny.lines[i]), p), all)
      {
        var today, k := EarliestDayPasses(config, deny, i, p);
        assert DenyPromisesKept(deny, today);
        assert NotOverdue(ReviewAt(Lower(deny.lines[i]), p), today);
      }
    }
  }

  lemma {:induction false} ShelteredFileIsKept(config: Config, deny: DenyArgument, today: Date)
    requires deny.Found? && GatePasses(config, deny, today) && UnreadSheltered(deny, Examined(config, deny))
    ensures DenyPromisesKept(deny, today)
  {
    forall i, p: nat | 0 <= i < |deny.lines| && Unread(deny.lines[i], p)
      ensures NotOverdue(ReviewAt(Lower(deny.lines[i]), p), today)
    {
      DatedIsValid(Lower(deny.lines[i]), p);
      ShelteredIsKept(ReviewAt(Lower(deny.lines[i]), p), Examined(config, deny), today);
    }
    DenyFileCoveredIff(config, deny, today);
  }

  /** So lines with one promise each leave nothing unread. */
  lemma {:induction false} OnePromiseForEachLine(config: Config, deny: DenyArgument, today: Date, i: nat, p: nat)
    requires deny.Found? && GatePasses(config, deny, today) && i < |deny.lines|
    requires forall q, r: nat :: PromiseAt(deny.lines[i], q) && PromiseAt(deny.lines[i], r) ==> q == r
    requires PromiseAt(deny.lines[i], p)
    ensures NotOverdue(ReviewAt(Lower(deny.lines[i]), p), today)
  {
    var line := deny.lines[i];
    var first := Search(Lower(line), 0);
    assert first.Some? by {
      if first.None? {
        assert OccursAt(Lower(line), TOKEN, p) && p < |Lower(line)|;
        assert MatchAt(Lower(line), p).None?;
      }
    }
    assert PromiseAt(line, first.value);
    ReadPromise(line, p);
    DenyLinePasses(config, deny, today, i);
  }

  lemma {:induction false} SampleNotes()
    ensures ReviewOf("review-by:2099-01-01") == Dated(Date(2099, 1, 1))
  {
    var notes := "review-by:2099-01-01";
    assert notes[0..9] == TOKEN;
    assert notes[9] == ':' && !IsSpace(notes[10]);
    SkipSpaceIs(notes, 10, 10);
    assert notes[10..20] == "2099-01-01";
    assert MatchAt(notes, 0) == Some("2099-01-01");
    assert ParseDate("2099-01-01") == Some(Date(2099, 1, 1));
    assert Search(notes, 0) == Some(0);
  }

  lemma {:induction false} OnlyTokenAt(raw: string, p: nat)
    requires OccursAt(raw, TOKEN, p) && p + 9 < |raw| && raw[p + 9] != ':'
    requires forall i :: 0 <= i < |raw| && i != p ==> raw[i] != 'r'
    ensures Tokens(raw, 0) == {p} && CountTokens(raw, 0) == 1 && ReviewAt(raw, p) == NoReview
  {
    CountIsAllTokens(raw, 0);
    forall i | i in Tokens(raw, 0)
      ensures i == p
    {
      assert raw[i] == raw[i..i + 9][0] == 'r';
    }
    assert Tokens(raw, 0) == {p};
  }

  /** A file with a comment, and one entry whose token is written with an escape. */
  ghost predicate IsSample(raw: string) {
    raw == "# " + TOKEN + "\n" + "[[exemptions.c]]\n" + "notes=\"\\u0072eview-by:" + "2099-01-01\""
  }

  lemma {:induction false} SampleText(raw: string)
    requires IsSample(raw)
    ensures Tokens(raw, 0) == {2} && CountTokens(raw, 0) == 1 && ReviewAt(raw, 2) == NoReview
  {
    var a, b, c := "[[exemptions.c]]\n", "notes=\"\\u0072eview-by:", "2099-01-01\"";
    assert 'r' !in a && 'r' !in b && 'r' !in c;
    TokenInComment(raw, a, b, c);
  }

  lemma {:induction false} TokenInComment(raw: string, a: string, b: string, c: string)
    requires raw == "# " + TOKEN + "\n" + a + b + c && 'r' !in a && 'r' !in b && 'r' !in c
    ensures Tokens(raw, 0) == {2} && CountTokens(raw, 0) == 1 && ReviewAt(raw, 2) == NoReview
  {
    assert raw[2..11] == TOKEN;
    OnlyTokenAt(raw, 2);
  }

  lemma {:induction false} OneEntryRead(crates: seq<CrateEntries>, notes: string)
    requires crates == [CrateEntries("c", [Entry(None, Some(notes))])] && ReviewOf(notes).Dated?
    ensures ReadAll(crates, 1) == [Exemption("c", "?", notes, ReviewOf(notes))]
    ensures ParsedCount(ReadAll(crates, 1), 1) == 1
  {
    var read := ReadCrate(crates[0]);
    assert ReadAll(crates, 1) == ReadAll(crates, 0) + read == read;
    assert read[0] == ReadEntry("c", crates[0].entries[0]);
    assert ParsedCount(read, 1) == ParsedCount(read, 0) + 1;
  }

  lemma {:induction false} OneEntryPasses(config: Config, notes: string, today: Date)
    requires config.crates == [CrateEntries("c", [Entry(None, Some(notes))])] && CountTokens(config.raw, 0) == 1
    requires ReviewOf(notes).Dated? && !Before(ReviewOf(notes).date, today)
    ensures GatePasses(config, NotGiven, today)
  {
    OneEntryRead(config.crates, notes);
    assert Examined(config, NotGiven) == ReadAll(config.crates, 1);
  }

  /**
    The counts alone do not suffice: in this file an escape hides the token of the only entry from
    the count, and a token in a comment, without a date, makes up the number.
   */
  lemma {:induction false} CountsAloneDoNotCover(config: Config, today: Date)
    requires IsSample(config.raw)
    requires config.crates == [CrateEntries("c", [Entry(None, Some("review-by:2099-01-01"))])] && today == Date(2026, 1, 1)
    ensures GatePasses(config, NotGiven, today)
    ensures 2 in Tokens(config.raw, 0) && ReviewAt(config.raw, 2) == NoReview
    ensures forall at :: Placing(config.raw, ReadAll(config.crates, |config.crates|), at) ==> !Complete(ReadAll(config.crates, |config.crates|), at)
  {
    SampleNotes();
    SampleText(config.raw);
    OneEntryPasses(config, "review-by:2099-01-01", today);
    OneEntryRead(config.crates, "review-by:2099-01-01");
    var exemptions := ReadAll(config.crates, 1);
    forall at | Placing(config.raw, exemptions, at)
      ensures !Complete(exemptions, at)
    {
      assert exemptions[0].review.Dated?;
    }
  }

  /** A second promise on a deny line is not read: this file passes with one that is long overdue. */
  lemma {:induction false} SecondPromiseIsNotRead(config: Config, deny: DenyArgument, line: string, today: Date)
    requires config == Config("", []) && deny == Found([line]) && today == Date(2026, 1, 1)
    requires line == "review-by:2099-01-01" + " " + "review-by:2000-01-01"
    ensures GatePasses(config, deny, today)
    ensures Unread(line, 21) && ReviewAt(Lower(line), 21) == Dated(Date(2000, 1, 1)) && !NotOverdue(ReviewAt(Lower(line), 21), today)
  {
    TwoPromises(line);
    LoneLinePasses(config, line, today);
  }

  lemma {:induction false} LowerIs(a: string)
    requires forall i :: 0 <= i < |a| ==> !('A' <= a[i] <= 'Z')
    ensures Lower(a) == a
  {
  }

  /** The match of a promise whose three parts stand at p. */
  lemma {:induction false} MatchHere(s: string, p: nat, date: string)
    requires OccursAt(s, TOKEN, p) && p + 20 <= |s| && s[p + 9] == ':' && s[p + 10..p + 20] == date && DateShape(date)
    ensures MatchAt(s, p) == Some(date)
  {
    assert IsDigit(s[p + 10]) by {
      assert s[p + 10] == s[p + 10..p + 20][0] == date[0];
    }
    SkipSpaceIs(s, p + 10, p + 10);
  }

  lemma {:induction false} SampleDates()
    ensures DateShape("2099-01-01") && ParseDate("2099-01-01") == Some(Date(2099, 1, 1))
    ensures DateShape("2000-01-01") && ParseDate("2000-01-01") == Some(Date(2000, 1, 1))
  {
  }

  lemma {:induction false} PromiseText(text: string, date: string)
    requires text == TOKEN + ":" + date && DateShape(date)
    ensures |text| == 20 && MatchAt(text, 0) == Some(date)
  {
    assert text[0..9] == TOKEN && text[10..20] == date;
    MatchHere(text, 0, date);
  }

  lemma {:induction false} TwoTexts(line: string, a: string, b: string)
    requires line == a + " " + b && |a| == 20 && MatchAt(a, 0).Some? && MatchAt(b, 0).Some?
    ensures Search(line, 0) == Some(0) && MatchAt(line, 0) == MatchAt(a, 0) && MatchAt(line, 21) == MatchAt(b, 0)
  {
    assert line[0..20] == a && line[21..21 + |b|] == b;
    MatchInSegment(line, a, 0, 0);
    MatchInSegment(line, b, 21, 0);
  }

  lemma {:induction false} TwoPromises(line: string)
    requires line == "review-by:2099-01-01" + " " + "review-by:2000-01-01"
    ensures Lower(line) == line && Search(line, 0) == Some(0)
    ensures ReviewAt(line, 0) == Dated(Date(2099, 1, 1)) && ReviewAt(line, 21) == Dated(Date(2000, 1, 1))
  {
    var a, b := "review-by:2099-01-01", "review-by:2000-01-01";
    SampleDates();
    PromiseText(a, "2099-01-01");
    PromiseText(b, "2000-01-01");
    TwoTexts(line, a, b);
    NoCapitals(line, a, b);
  }

  lemma {:induction false} NoCapitals(line: string, a: string, b: string)
    requires line == a + " " + b && a == "review-by:2099-01-01" && b == "review-by:2000-01-01"
    ensures Lower(line) == line
  {
    assert forall i :: 0 <= i < |a| ==> !('A' <= a[i] <= 'Z');
    assert forall i :: 0 <= i < |b| ==> !('A' <= b[i] <= 'Z');
    LowerIs(line);
  }

  lemma {:induction false} LoneLinePasses(config: Config, line: string, today: Date)
    requires config == Config("", []) && ReviewOf(Lower(line)).Dated? && !Before(ReviewOf(Lower(line)).date, today)
    ensures GatePasses(config, Found([line]), today)
  {
    var lines := [line];
    assert DenyEntries(lines, 1) == DenyEntries(lines, 0) + [DenyEntry(line, 1).value];
    assert ReadAll(config.crates, 0) == [];
    assert Examined(config, Found(lines)) == DenyEntries(lines, 1);
  }
}
