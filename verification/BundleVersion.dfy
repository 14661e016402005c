/**
  From a version of the form of sections 2 and 9 of Semantic Versioning 2.0.0, restricted to alpha, beta and rc
  pre-releases, to an Apple CFBundleVersion.
 */
module BundleVersion {
  import opened Basics

  /** (0|[1-9][0-9]*) */
  predicate IsNumeral(s: string) {
    && s != "" && (forall i :: 0 <= i < |s| ==> IsDigit(s[i]))
    && (s[0] == '0' ==> |s| == 1)
  }

  /** Not a continuation of a numeral. */
  predicate EndsNumeral(rest: string) {
    rest == "" || !IsDigit(rest[0])
  }

  // ----- numbers ----------------------------------------------------------------------------------

  function IntOf(s: string): nat
    requires forall i :: 0 <= i < |s| ==> IsDigit(s[i])
  {
    if s == "" then 0
    else
      assert IsDigit(s[|s| - 1]);
      IntOf(s[..|s| - 1]) * 10 + (s[|s| - 1] as int - '0' as int)
  }

  lemma {:induction false} NumeralIsPositive(s: string)
    requires IsNumeral(s) && s[0] != '0'
    ensures IntOf(s) > 0
  {
    if |s| > 1 {
      NumeralIsPositive(s[..|s| - 1]);
    }
  }

  /** A numeral is the decimal rendering of its value. */
  lemma {:induction false} DecimalOfNumeral(s: string)
    requires IsNumeral(s)
    ensures Decimal(IntOf(s)) == s
  {
    var init, last := s[..|s| - 1], s[|s| - 1];
    assert s == init + [last];
    if |s| > 1 {
      DecimalOfNumeral(init);
      NumeralIsPositive(init);
    } else {
      assert IntOf(init) == 0;
    }
  }

  // ----- reading numbers --------------------------------------------------------------------------

  /** The numeral that s starts with, and the rest. */
  function TakeDigits(s: string): (r: (string, string))
    ensures s == r.0 + r.1 && EndsNumeral(r.1) && forall i :: 0 <= i < |r.0| ==> IsDigit(r.0[i])
  {
    if EndsNumeral(s) then ("", s)
    else
      var (d, rest) := TakeDigits(s[1..]);
      ([s[0]] + d, rest)
  }

  lemma {:induction false} TakeDigitsOf(d: string, rest: string)
    requires (forall i :: 0 <= i < |d| ==> IsDigit(d[i])) && EndsNumeral(rest)
    ensures TakeDigits(d + rest) == (d, rest)
  {
    if d == "" {
      assert d + rest == rest;
    } else {
      TakeDigitsOf(d[1..], rest);
      assert (d + rest)[1..] == d[1..] + rest;
      assert d == [d[0]] + d[1..];
    }
  }

  function TakeNumeral(s: string): (r: Option<(string, string)>)
    ensures r.Some? ==> s == r.value.0 + r.value.1 && IsNumeral(r.value.0) && EndsNumeral(r.value.1)
  {
    var (d, rest) := TakeDigits(s);
    if IsNumeral(d) then Some((d, rest)) else None
  }

  /** What follows the word at the start of s. */
  function After(s: string, word: string): (r: Option<string>)
    ensures r.Some? ==> s == word + r.value
  {
    if |s| >= |word| && s[..|word|] == word then Some(s[|word|..]) else None
  }

  lemma {:induction false} AfterWord(word: string, rest: string)
    ensures After(word + rest, word) == Some(rest)
  {
    assert (word + rest)[..|word|] == word && (word + rest)[|word|..] == rest;
  }

  // ----- versions ---------------------------------------------------------------------------------

  datatype Kind = Alpha | Beta | Rc

  datatype PreRelease = PreRelease(kind: Kind, number: string)

  datatype Core = Core(major: string, minor: string, patch: string)

  datatype Version = Version(core: Core, pre: Option<PreRelease>)

  predicate WellFormed(v: Version) {
    && IsNumeral(v.core.major) && IsNumeral(v.core.minor) && IsNumeral(v.core.patch)
    && (v.pre.Some? ==> IsNumeral(v.pre.value.number))
  }

  function CoreText(c: Core): string {
    c.major + ("." + (c.minor + ("." + c.patch)))
  }

  function KindName(k: Kind): string {
    match k case Alpha => "alpha" case Beta => "beta" case Rc => "rc"
  }

  function AppleName(k: Kind): string {
    match k case Alpha => "a" case Beta => "b" case Rc => "fc"
  }

  /** The words before the number of a pre-release, in either notation. */
  function Lead(k: Kind, apple: bool): string {
    if apple then AppleName(k) else "-" + KindName(k) + "."
  }

  function PreText(p: Option<PreRelease>, apple: bool): string {
    if p.None? then "" else Lead(p.value.kind, apple) + p.value.number
  }

  /** A version written as SemVer, or as an Apple bundle version. */
  function Print(v: Version, apple: bool): string {
    CoreText(v.core) + PreText(v.pre, apple)
  }

  // ----- reading versions -------------------------------------------------------------------------

  function ParseCore(s: string): (r: Option<(Core, string)>)
    ensures r.Some? ==>
      var (c, rest) := r.value;
      && s == CoreText(c) + rest && EndsNumeral(rest)
      && IsNumeral(c.major) && IsNumeral(c.minor) && IsNumeral(c.patch)
  {
    var a := TakeNumeral(s);
    if a.None? then None
    else
      var b := After(a.value.1, ".");
      if b.None? then None
      else
        var c := TakeNumeral(b.value);
        if c.None? then None
        else
          var d := After(c.value.1, ".");
          if d.None? then None
          else
            var e := TakeNumeral(d.value);
            if e.None? then None
            else
              Joined(a.value.0, c.value.0, e.value.0, e.value.1);
              Some((Core(a.value.0, c.value.0, e.value.0), e.value.1))
  }

  lemma {:induction false} Joined(a: string, b: string, c: string, rest: string)
    ensures CoreText(Core(a, b, c)) + rest == a + ("." + (b + ("." + (c + rest))))
  {
  }

  lemma {:induction false} TakeNumeralOf(d: string, rest: string)
    requires IsNumeral(d) && EndsNumeral(rest)
    ensures TakeNumeral(d + rest) == Some((d, rest))
  {
    TakeDigitsOf(d, rest);
  }

  lemma {:induction false} ParseCoreOf(c: Core, rest: string)
    requires IsNumeral(c.major) && IsNumeral(c.minor) && IsNumeral(c.patch) && EndsNumeral(rest)
    ensures ParseCore(CoreText(c) + rest) == Some((c, rest))
  {
    Joined(c.major, c.minor, c.patch, rest);
    TakeNumeralOf(c.major, "." + (c.minor + ("." + (c.patch + rest))));
    AfterWord(".", c.minor + ("." + (c.patch + rest)));
    TakeNumeralOf(c.minor, "." + (c.patch + rest));
    AfterWord(".", c.patch + rest);
    TakeNumeralOf(c.patch, rest);
  }

  function KindAt(s: string, apple: bool): (r: Option<(Kind, string)>)
    ensures r.Some? ==> s == Lead(r.value.0, apple) + r.value.1
  {
    var a, b, c := After(s, Lead(Alpha, apple)), After(s, Lead(Beta, apple)), After(s, Lead(Rc, apple));
    if a.Some? then Some((Alpha, a.value))
    else if b.Some? then Some((Beta, b.value))
    else if c.Some? then Some((Rc, c.value))
    else None
  }

  /** The three leads differ at one place. */
  lemma {:induction false} LeadsDiffer(k: Kind, rest: string, apple: bool)
    ensures KindAt(Lead(k, apple) + rest, apple) == Some((k, rest))
  {
    var s := Lead(k, apple) + rest;
    var at := if apple then 0 else 1;
    AfterWord(Lead(k, apple), rest);
    assert s[at] == Lead(k, apple)[at];
    forall j: Kind | j != k
      ensures After(s, Lead(j, apple)).None?
    {
      if |s| >= |Lead(j, apple)| {
        assert s[..|Lead(j, apple)|][at] == s[at];
        assert Lead(j, apple)[at] != Lead(k, apple)[at];
      }
    }
  }

  function ParsePre(s: string, apple: bool): (r: Option<Option<PreRelease>>)
    ensures r.Some? ==> s == PreText(r.value, apple) && (r.value.Some? ==> IsNumeral(r.value.value.number))
  {
    if s == "" then Some(None)
    else
      var k := KindAt(s, apple);
      if k.Some? && IsNumeral(k.value.1) then Some(Some(PreRelease(k.value.0, k.value.1))) else None
  }

  lemma {:induction false} ParsePreOf(p: Option<PreRelease>, apple: bool)
    requires p.Some? ==> IsNumeral(p.value.number)
    ensures EndsNumeral(PreText(p, apple)) && ParsePre(PreText(p, apple), apple) == Some(p)
  {
    if p.Some? {
      LeadsDiffer(p.value.kind, p.value.number, apple);
      assert PreText(p, apple)[0] == Lead(p.value.kind, apple)[0];
    }
  }

  /** SEMVER_RE.fullmatch, and the same reader for the Apple notation. */
  function Parse(s: string, apple: bool): (r: Option<Version>)
    ensures r.Some? ==> WellFormed(r.value)
  {
    var core := ParseCore(s);
    if core.None? then None
    else
      var pre := ParsePre(core.value.1, apple);
      if pre.None? then None else Some(Version(core.value.0, pre.value))
  }

  /** The reader accepts exactly the printed well-formed versions, each as what it was printed from. */
  lemma {:induction false} ParseIff(s: string, apple: bool, v: Version)
    ensures Parse(s, apple) == Some(v) <==> WellFormed(v) && s == Print(v, apple)
  {
    if WellFormed(v) && s == Print(v, apple) {
      ParsePreOf(v.pre, apple);
      ParseCoreOf(v.core, PreText(v.pre, apple));
    }
  }

  // ----- the conversion ---------------------------------------------------------------------------

  datatype Refusal = NotAVersion | TooManyDigits | NumberOutOfRange

  function AppleBundleVersion(version: string): Result<string, Refusal> {
    match Parse(version, false)
    case None => Failure(NotAVersion)
    case Some(v) =>
      if |v.core.major| > 4 || |v.core.minor| > 2 || |v.core.patch| > 2 then Failure(TooManyDigits)
      else if v.pre.None? then Success(CoreText(v.core))
      else
        var p := v.pre.value;
        if !(1 <= IntOf(p.number) <= 255) then Failure(NumberOutOfRange)
        else Success(CoreText(v.core) + AppleName(p.kind) + Decimal(IntOf(p.number)))
  }

  /** What Apple's format allows. */
  predicate Convertible(v: Version) {
    && WellFormed(v)
    && |v.core.major| <= 4 && |v.core.minor| <= 2 && |v.core.patch| <= 2
    && (v.pre.Some? ==> 1 <= IntOf(v.pre.value.number) <= 255)
  }

  /** A conversion succeeds exactly on the SemVer text of a convertible version, and gives its Apple text. */
  lemma {:induction false} ConvertsIff(s: string, t: string)
    ensures AppleBundleVersion(s) == Success(t) <==>
      exists v :: Convertible(v) && s == Print(v, false) && t == Print(v, true)
  {
    if AppleBundleVersion(s) == Success(t) {
      var v := Parse(s, false).value;
      ParseIff(s, false, v);
      ConvertedText(v);
      assert Convertible(v) && s == Print(v, false) && t == Print(v, true);
    }
    if v :| Convertible(v) && s == Print(v, false) && t == Print(v, true) {
      ParseIff(s, false, v);
      ConvertedText(v);
    }
  }

  lemma {:induction false} ConvertedText(v: Version)
    requires WellFormed(v)
    ensures v.pre.None? ==> Print(v, true) == CoreText(v.core)
    ensures v.pre.Some? ==> Print(v, true) == CoreText(v.core) + AppleName(v.pre.value.kind) + Decimal(IntOf(v.pre.value.number))
  {
    if v.pre.Some? {
      DecimalOfNumeral(v.pre.value.number);
      var a, b, c := CoreText(v.core), AppleName(v.pre.value.kind), v.pre.value.number;
      assert a + (b + c) == a + b + c;
    }
  }

  /** Back from an Apple bundle version to SemVer. */
  function SemVerOf(apple: string): Option<string> {
    match Parse(apple, true)
    case None => None
    case Some(v) => Some(Print(v, false))
  }

  /** Reading the bundle version back gives the version it was made from. */
  lemma {:induction false} ConversionHasLeftInverse(s: string)
    requires AppleBundleVersion(s).Success?
    ensures SemVerOf(AppleBundleVersion(s).value) == Some(s)
  {
    var t := AppleBundleVersion(s).value;
    ConvertsIff(s, t);
    var v :| Convertible(v) && s == Print(v, false) && t == Print(v, true);
    ParseIff(t, true, v);
  }

  /** So no two versions share a bundle version. */
  lemma {:induction false} ConversionIsInjective(s: string, t: string)
    requires AppleBundleVersion(s).Success? && AppleBundleVersion(s) == AppleBundleVersion(t)
    ensures s == t
  {
    ConversionHasLeftInverse(s);
    ConversionHasLeftInverse(t);
  }
}
