/**
  The fingerprint of an HTTP Chat invocation: SHA-256 over the length-prefixed surface, model and
  credential. The digest is any function to 32 bytes; nothing says that it is injective.
 */
module Fingerprint {
  import opened Basics

  type Byte = n: int | 0 <= n < 256

  type Digest = d: seq<Byte> | |d| == 32 witness seq(32, _ => 0)

  type HashFunction = seq<Byte> -> Digest

  /** Two inputs that the hash function cannot tell apart. */
  ghost predicate Collision(H: HashFunction, x: seq<Byte>, y: seq<Byte>) {
    x != y && H(x) == H(y)
  }

  // ----- UTF-8 ------------------------------------------------------------------------------------

  function CharBytes(c: char): (r: seq<Byte>)
    ensures 1 <= |r| <= 4
  {
    var n := c as int;
    if n < 0x80 then [n]
    else if n < 0x800 then [0xC0 + n / 64, 0x80 + n % 64]
    else if n < 0x1_0000 then [0xE0 + n / 4096, 0x80 + n / 64 % 64, 0x80 + n % 64]
    else [0xF0 + n / 0x4_0000, 0x80 + n / 4096 % 64, 0x80 + n / 64 % 64, 0x80 + n % 64]
  }

  /** The bytes of a string. */
  function Utf8(s: string): seq<Byte> {
    if s == [] then [] else CharBytes(s[0]) + Utf8(s[1..])
  }

  /** The code point of the character that a byte string starts with. */
  function FirstCode(b: seq<Byte>): int
    requires |b| > 0
  {
    var a: int := b[0];
    var x: int := if |b| > 1 then b[1] as int - 0x80 else 0;
    var y: int := if |b| > 2 then b[2] as int - 0x80 else 0;
    var z: int := if |b| > 3 then b[3] as int - 0x80 else 0;
    if a < 0xC0 then a
    else if a < 0xE0 then (a - 0xC0) * 64 + x
    else if a < 0xF0 then (a - 0xE0) * 4096 + x * 64 + y
    else (a - 0xF0) * 0x4_0000 + x * 4096 + y * 64 + z
  }

  lemma {:induction false} FirstCharDecodes(c: char, rest: seq<Byte>)
    ensures FirstCode(CharBytes(c) + rest) == c as int
  {
    var n := c as int;
    assert n == n / 64 * 64 + n % 64;
    assert n / 64 == n / 64 / 64 * 64 + n / 64 % 64 && n / 64 / 64 == n / 4096;
    assert n / 4096 == n / 4096 / 64 * 64 + n / 4096 % 64 && n / 4096 / 64 == n / 0x4_0000;
  }

  lemma {:induction false} Utf8Injective(s: string, t: string)
    requires Utf8(s) == Utf8(t)
    ensures s == t
  {
    if s != [] && t != [] {
      FirstCharDecodes(s[0], Utf8(s[1..]));
      FirstCharDecodes(t[0], Utf8(t[1..]));
      assert s[0] as int == t[0] as int;
      assert s[0] == t[0];
      var m := |CharBytes(s[0])|;
      assert Utf8(s)[m..] == Utf8(s[1..]) && Utf8(t)[m..] == Utf8(t[1..]);
      Utf8Injective(s[1..], t[1..]);
      assert s == [s[0]] + s[1..] && t == [t[0]] + t[1..];
    }
  }

  // ----- big-endian numbers -----------------------------------------------------------------------

  /** The last k base-256 digits of n, most significant first. */
  function ToBytes(n: nat, k: nat): (r: seq<Byte>)
    ensures |r| == k
  {
    if k == 0 then [] else ToBytes(n / 256, k - 1) + [n % 256]
  }

  function FromBytes(b: seq<Byte>): nat {
    if b == [] then 0 else FromBytes(b[..|b| - 1]) * 256 + b[|b| - 1]
  }

  function Power256(k: nat): nat {
    if k == 0 then 1 else 256 * Power256(k - 1)
  }

  /** Reading the digits back gives n modulo their range: what the cast to u64 keeps. */
  lemma {:induction false} BytesRoundTrip(n: nat, k: nat)
    requires n < Power256(k)
    ensures FromBytes(ToBytes(n, k)) == n
  {
    if k > 0 {
      assert n / 256 < Power256(k - 1);
      BytesRoundTrip(n / 256, k - 1);
      assert ToBytes(n, k)[..k - 1] == ToBytes(n / 256, k - 1);
    }
  }

  const MAX_LENGTH: nat := 0x1_0000_0000_0000_0000

  lemma {:induction false} LengthRange()
    ensures Power256(8) == MAX_LENGTH
  {
    assert Power256(2) == 0x1_0000;
    assert Power256(4) == 0x1_0000_0000;
    assert Power256(6) == 0x1_0000_0000_0000;
  }

  // ----- the encoding -----------------------------------------------------------------------------

  datatype Credential = NoAuth | Secret(secret: string)

  datatype Input = Input(surface: string, model: string, credential: Credential)

  /** b"http-chat-invocation/v1\0" */
  const DOMAIN: seq<Byte> := [0x68, 0x74, 0x74, 0x70, 0x2D, 0x63, 0x68, 0x61, 0x74, 0x2D, 0x69, 0x6E,
                              0x76, 0x6F, 0x63, 0x61, 0x74, 0x69, 0x6F, 0x6E, 0x2F, 0x76, 0x31, 0x00]

  /** b"no-auth" */
  const NO_AUTH: seq<Byte> := [0x6E, 0x6F, 0x2D, 0x61, 0x75, 0x74, 0x68]

  /** The length as a 64-bit number, most significant byte first. */
  function LengthPrefix(n: nat): (r: seq<Byte>)
    ensures |r| == 8
  {
    ToBytes(n % MAX_LENGTH, 8)
  }

  function Part(p: seq<Byte>): seq<Byte> {
    LengthPrefix(|p|) + p
  }

  function CredentialPart(H: HashFunction, c: Credential): seq<Byte> {
    if c.NoAuth? then NO_AUTH else H(Utf8(c.secret))
  }

  function Encode(H: HashFunction, x: Input): seq<Byte> {
    DOMAIN + Part(Utf8(x.surface)) + Part(Utf8(x.model)) + Part(CredentialPart(H, x.credential))
  }

  /** Reading one part back, and what follows it. */
  function TakePart(b: seq<Byte>): Option<(seq<Byte>, seq<Byte>)> {
    if |b| < 8 then None
    else
      var n := FromBytes(b[..8]);
      if 8 + n <= |b| then Some((b[8..8 + n], b[8 + n..])) else None
  }

  lemma {:induction false} PartRoundTrip(p: seq<Byte>, rest: seq<Byte>)
    requires |p| < MAX_LENGTH
    ensures TakePart(Part(p) + rest) == Some((p, rest))
  {
    LengthReadsBack(|p|);
    TakeCounted(LengthPrefix(|p|), p, rest);
  }

  lemma {:induction false} LengthReadsBack(n: nat)
    requires n < MAX_LENGTH
    ensures FromBytes(LengthPrefix(n)) == n
  {
    LengthRange();
    BytesRoundTrip(n, 8);
    assert n % MAX_LENGTH == n;
  }

  lemma {:induction false} TakeCounted(head: seq<Byte>, p: seq<Byte>, rest: seq<Byte>)
    requires |head| == 8 && FromBytes(head) == |p|
    ensures TakePart(head + p + rest) == Some((p, rest))
  {
    var b := head + p + rest;
    assert b[..8] == head;
    assert b[8..8 + |p|] == p && b[8 + |p|..] == rest;
  }

  /** A part is never a proper beginning of other parts. */
  lemma {:induction false} PartsAgree(p: seq<Byte>, rest: seq<Byte>, q: seq<Byte>, tail: seq<Byte>)
    requires |p| < MAX_LENGTH && |q| < MAX_LENGTH && Part(p) + rest == Part(q) + tail
    ensures p == q && rest == tail
  {
    PartRoundTrip(p, rest);
    PartRoundTrip(q, tail);
  }

  /** Rust slices are this short. */
  ghost predicate Sized(x: Input) {
    |Utf8(x.surface)| < MAX_LENGTH && |Utf8(x.model)| < MAX_LENGTH
  }

  /** Equal encodings come from equal parts. */
  lemma {:induction false} EncodingInjective(H: HashFunction, x: Input, y: Input)
    requires Sized(x) && Sized(y) && Encode(H, x) == Encode(H, y)
    ensures x.surface == y.surface && x.model == y.model
    ensures CredentialPart(H, x.credential) == CredentialPart(H, y.credential)
  {
    var cx, cy := CredentialPart(H, x.credential), CredentialPart(H, y.credential);
    var mx, my := Part(Utf8(x.model)) + Part(cx), Part(Utf8(y.model)) + Part(cy);
    Regroup(DOMAIN, Part(Utf8(x.surface)), Part(Utf8(x.model)), Part(cx));
    Regroup(DOMAIN, Part(Utf8(y.surface)), Part(Utf8(y.model)), Part(cy));
    PartsAgree(Utf8(x.surface), mx, Utf8(y.surface), my);
    PartsAgree(Utf8(x.model), Part(cx), Utf8(y.model), Part(cy));
    assert Part(cx) + [] == Part(cy) + [];
    PartsAgree(cx, [], cy, []);
    Utf8Injective(x.surface, y.surface);
    Utf8Injective(x.model, y.model);
  }

  /** Two inputs share an encoding if and only if they are equal or differ only in secrets whose
      digests collide. */
  lemma {:induction false} EncodingsEqualIff(H: HashFunction, x: Input, y: Input)
    requires Sized(x) && Sized(y)
    ensures Encode(H, x) == Encode(H, y) <==>
      || x == y
      || (&& x.surface == y.surface && x.model == y.model && x.credential.Secret? && y.credential.Secret?
          && Collision(H, Utf8(x.credential.secret), Utf8(y.credential.secret)))
  {
    if Encode(H, x) == Encode(H, y) {
      EncodingInjective(H, x, y);
      if x.credential.Secret? && y.credential.Secret? && Utf8(x.credential.secret) == Utf8(y.credential.secret) {
        Utf8Injective(x.credential.secret, y.credential.secret);
      }
    }
  }

  lemma {:induction false} Regroup(a: seq<Byte>, b: seq<Byte>, c: seq<Byte>, d: seq<Byte>)
    ensures (a + b + c + d)[|a|..] == b + (c + d)
  {
  }

  // ----- hexadecimal ------------------------------------------------------------------------------

  function HexDigit(n: int): (c: char)
    requires 0 <= n < 16
    ensures IsHexDigit(c)
  {
    if n < 10 then (n + '0' as int) as char else (n - 10 + 'a' as int) as char
  }

  function HexValue(c: char): (n: int)
    requires IsHexDigit(c)
    ensures 0 <= n < 16 && HexDigit(n) == c
  {
    if c <= '9' then c as int - '0' as int else c as int - 'a' as int + 10
  }

  /** Two lower-case digits for each byte. */
  function Hex(b: seq<Byte>): (r: string)
    ensures IsLowerHex(r, 2 * |b|)
  {
    if b == [] then [] else [HexDigit(b[0] / 16), HexDigit(b[0] % 16)] + Hex(b[1..])
  }

  function Unhex(s: string): (b: seq<Byte>)
    requires |s| % 2 == 0 && IsLowerHex(s, |s|)
    ensures |b| == |s| / 2
  {
    if s == [] then [] else [HexValue(s[0]) * 16 + HexValue(s[1])] + Unhex(s[2..])
  }

  lemma {:induction false} DigitReadsBack(n: int)
    requires 0 <= n < 16
    ensures HexValue(HexDigit(n)) == n
  {
  }

  lemma {:induction false} ByteReadsBack(x: Byte)
    ensures HexValue(HexDigit(x / 16)) * 16 + HexValue(HexDigit(x % 16)) == x
  {
    DigitReadsBack(x / 16);
    DigitReadsBack(x % 16);
  }

  lemma {:induction false} UnhexOfHex(b: seq<Byte>)
    ensures Unhex(Hex(b)) == b
  {
    if b != [] {
      UnhexOfHex(b[1..]);
      ByteReadsBack(b[0]);
      UnhexStep(Hex(b), HexDigit(b[0] / 16), HexDigit(b[0] % 16), Hex(b[1..]));
      assert b == [b[0]] + b[1..];
    }
  }

  lemma {:induction false} UnhexStep(s: string, c: char, d: char, rest: string)
    requires s == [c, d] + rest && |rest| % 2 == 0 && IsHexDigit(c) && IsHexDigit(d) && IsLowerHex(rest, |rest|)
    ensures IsLowerHex(s, |s|) && Unhex(s) == [HexValue(c) * 16 + HexValue(d)] + Unhex(rest)
  {
    assert s[2..] == rest;
  }

  lemma {:induction false} HexOfUnhex(s: string)
    requires |s| % 2 == 0 && IsLowerHex(s, |s|)
    ensures Hex(Unhex(s)) == s
  {
    if s != [] {
      HexOfUnhex(s[2..]);
      var b := Unhex(s);
      assert b[0] / 16 == HexValue(s[0]) && b[0] % 16 == HexValue(s[1]);
      assert b[1..] == Unhex(s[2..]);
      assert s == [s[0], s[1]] + s[2..];
    }
  }

  // ----- the fingerprint --------------------------------------------------------------------------

  const PREFIX := "sha256:"

  function FingerprintOf(H: HashFunction, x: Input): string {
    PREFIX + Hex(H(Encode(H, x)))
  }

  predicate IsFingerprint(s: string) {
    |s| >= |PREFIX| && s[..|PREFIX|] == PREFIX && IsLowerHex(s[|PREFIX|..], 64)
  }

  /** The recogniser accepts exactly the renderings of 32-byte digests. */
  lemma {:induction false} IsFingerprintIff(s: string)
    ensures IsFingerprint(s) <==> exists d: Digest :: s == PREFIX + Hex(d)
  {
    if IsFingerprint(s) {
      var hex := s[|PREFIX|..];
      var d: Digest := Unhex(hex);
      HexOfUnhex(hex);
      assert s == PREFIX + Hex(d);
    }
    if d: Digest :| s == PREFIX + Hex(d) {
      assert s[|PREFIX|..] == Hex(d);
    }
  }

  lemma {:induction false} EveryFingerprintIsRecognised(H: HashFunction, x: Input)
    ensures IsFingerprint(FingerprintOf(H, x))
  {
    var d: Digest := H(Encode(H, x));
    assert FingerprintOf(H, x) == PREFIX + Hex(d);
    IsFingerprintIff(FingerprintOf(H, x));
  }

  lemma {:induction false} SameDigest(H: HashFunction, x: Input, y: Input)
    requires FingerprintOf(H, x) == FingerprintOf(H, y)
    ensures H(Encode(H, x)) == H(Encode(H, y))
  {
    var a, b := H(Encode(H, x)), H(Encode(H, y));
    assert Hex(a) == FingerprintOf(H, x)[|PREFIX|..] && Hex(b) == FingerprintOf(H, y)[|PREFIX|..];
    UnhexOfHex(a);
    UnhexOfHex(b);
  }

  /** The encodings of two inputs, or their secrets, are a collision. */
  ghost predicate Collide(H: HashFunction, x: Input, y: Input) {
    || Collision(H, Encode(H, x), Encode(H, y))
    || (x.credential.Secret? && y.credential.Secret? && Collision(H, Utf8(x.credential.secret), Utf8(y.credential.secret)))
  }

  /**
    Equal fingerprints come from equal inputs, or here is a collision: of the two encodings, or of
    the two secrets. No secret is mistaken for the absence of one unless the encodings collide.
   */
  lemma {:induction false} EqualInputsOrCollision(H: HashFunction, x: Input, y: Input)
    requires Sized(x) && Sized(y) && FingerprintOf(H, x) == FingerprintOf(H, y)
    ensures x == y || Collide(H, x, y)
  {
    SameDigest(H, x, y);
    if Encode(H, x) == Encode(H, y) {
      EncodingInjective(H, x, y);
      if x.credential.Secret? && y.credential.Secret? && Utf8(x.credential.secret) == Utf8(y.credential.secret) {
        Utf8Injective(x.credential.secret, y.credential.secret);
      }
    }
  }

  /** Inputs that differ in more than the secret can only share a fingerprint by a collision of their encodings. */
  lemma {:induction false} DifferentKindsCollide(H: HashFunction, x: Input, y: Input)
    requires Sized(x) && Sized(y) && FingerprintOf(H, x) == FingerprintOf(H, y)
    requires x.surface != y.surface || x.model != y.model || x.credential.NoAuth? != y.credential.NoAuth?
    ensures Collision(H, Encode(H, x), Encode(H, y))
  {
    SameDigest(H, x, y);
    if Encode(H, x) == Encode(H, y) {
      EncodingInjective(H, x, y);
      assert false;
    }
  }

  // ----- collisions exist -------------------------------------------------------------------------

  /** The digits of a byte string are its value's: no two byte strings of one length share a value. */
  lemma {:induction false} ValueReadsBack(b: seq<Byte>)
    ensures FromBytes(b) < Power256(|b|) && ToBytes(FromBytes(b), |b|) == b
  {
    if b != [] {
      var init, last := b[..|b| - 1], b[|b| - 1];
      ValueReadsBack(init);
      assert b == init + [last];
      assert FromBytes(b) / 256 == FromBytes(init) && FromBytes(b) % 256 == last;
    }
  }

  ghost function Image(f: nat -> nat, n: nat): set<nat> {
    set i: nat | i < n :: f(i)
  }

  lemma {:induction false} ImageSize(f: nat -> nat, n: nat)
    requires forall i: nat, j: nat :: i < j < n ==> f(i) != f(j)
    ensures |Image(f, n)| == n
  {
    if n == 0 {
      assert Image(f, n) == {};
    } else {
      ImageSize(f, n - 1);
      assert Image(f, n) == Image(f, n - 1) + {f(n - 1)};
      assert f(n - 1) !in Image(f, n - 1);
    }
  }

  lemma {:induction false} BelowSize(s: set<nat>, n: nat)
    requires forall x :: x in s ==> x < n
    ensures |s| <= n
  {
    if n == 0 {
      assert s == {};
    } else {
      BelowSize(s - {n - 1}, n - 1);
      assert s <= (s - {n - 1}) + {n - 1};
      if n - 1 in s {
        assert |s| == |s - {n - 1}| + 1;
      } else {
        assert s == s - {n - 1};
      }
    }
  }

  /** More arguments than values: two of them share one. */
  lemma {:induction false} Pigeonhole(f: nat -> nat, n: nat) returns (i: nat, j: nat)
    requires forall k: nat :: k <= n ==> f(k) < n
    ensures i < j <= n && f(i) == f(j)
  {
    if k: nat, l: nat :| k < l <= n && f(k) == f(l) {
      i, j := k, l;
    } else {
      ImageSize(f, n + 1);
      BelowSize(Image(f, n + 1), n);
      assert false;
    }
  }

  /** The i-th of more secrets than there are digests. */
  function NthSecret(i: nat): string {
    Hex(ToBytes(i, 33))
  }

  lemma {:induction false} SecretsDiffer(i: nat, j: nat)
    requires i < j <= Power256(32)
    ensures NthSecret(i) != NthSecret(j) && Utf8(NthSecret(i)) != Utf8(NthSecret(j))
  {
    assert Power256(33) == 256 * Power256(32);
    BytesRoundTrip(i, 33);
    BytesRoundTrip(j, 33);
    UnhexOfHex(ToBytes(i, 33));
    UnhexOfHex(ToBytes(j, 33));
    if Utf8(NthSecret(i)) == Utf8(NthSecret(j)) {
      Utf8Injective(NthSecret(i), NthSecret(j));
    }
  }

  /** Every hash function has two secrets with one digest. */
  lemma {:induction false} SecretsCollide(H: HashFunction) returns (a: string, b: string)
    ensures a != b && Collision(H, Utf8(a), Utf8(b))
  {
    var f := (i: nat) => FromBytes(H(Utf8(NthSecret(i))));
    forall k: nat | k <= Power256(32)
      ensures f(k) < Power256(32)
    {
      ValueReadsBack(H(Utf8(NthSecret(k))));
    }
    var i, j := Pigeonhole(f, Power256(32));
    a, b := NthSecret(i), NthSecret(j);
    SecretsDiffer(i, j);
    ValueReadsBack(H(Utf8(a)));
    ValueReadsBack(H(Utf8(b)));
  }

  /** So whatever the hash function, two different inputs do share an encoding and a fingerprint. */
  lemma {:induction false} DifferentInputsShareAnEncoding(H: HashFunction) returns (x: Input, y: Input)
    ensures x != y && Encode(H, x) == Encode(H, y) && FingerprintOf(H, x) == FingerprintOf(H, y)
  {
    var a, b := SecretsCollide(H);
    x, y := Input("", "", Secret(a)), Input("", "", Secret(b));
    EncodingsEqualIff(H, x, y);
  }

  // ----- the hasher -------------------------------------------------------------------------------

  /** An incremental hasher: the digest is that of everything it was fed. */
  class Hasher {
    const H: HashFunction
    var fed: seq<Byte>

    constructor (H: HashFunction)
      ensures this.H == H && fed == []
    {
      this.H := H;
      fed := [];
    }

    method Update(bytes: seq<Byte>)
      modifies this
      ensures fed == old(fed) + bytes
      ensures old(fed) == [] ==> fed == bytes
    {
      fed := fed + bytes;
    }

    method UpdatePart(part: seq<Byte>)
      modifies this
      ensures fed == old(fed) + Part(part)
    {
      Update(LengthPrefix(|part|));
      Update(part);
    }

    method Finalize() returns (d: Digest)
      ensures d == H(fed)
    {
      d := H(fed);
    }
  }

  method HttpChatFingerprint(H: HashFunction, surface: string, model: string, credential: Credential)
    returns (r: string)
    ensures r == FingerprintOf(H, Input(surface, model, credential))
    ensures IsFingerprint(r)
  {
    var hasher := new Hasher(H);
    hasher.Update(DOMAIN);
    hasher.UpdatePart(Utf8(surface));
    hasher.UpdatePart(Utf8(model));
    match credential {
      case NoAuth =>
        hasher.UpdatePart(NO_AUTH);
      case Secret(secret) =>
        hasher.UpdatePart(H(Utf8(secret)));
    }
    assert hasher.fed == Encode(H, Input(surface, model, credential));
    var digest := hasher.Finalize();
    EveryFingerprintIsRecognised(H, Input(surface, model, credential));
    r := PREFIX + Hex(digest);
  }
}
