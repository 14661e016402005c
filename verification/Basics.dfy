/** Options, results and the text operations that several components share. */
module Basics {

  datatype Option<+T> = None | Some(value: T)

  datatype Result<+T, +E> = Success(value: T) | Failure(error: E)

  /** No two positions of s hold the same value. */
  ghost predicate Distinct<T>(s: seq<T>) {
    forall i, j :: 0 <= i < j < |s| ==> s[i] != s[j]
  }

  /** Two positions of s hold the same value. */
  predicate HasRepeat<T(==)>(s: seq<T>) {
    exists i, j :: 0 <= i < j < |s| && s[i] == s[j]
  }

  /** The values of a, in order, that do not occur in b. */
  function Without<T(==,!new)>(a: seq<T>, b: seq<T>): (r: seq<T>)
    ensures forall x :: x in r <==> x in a && x !in b
  {
    if a == [] then []
    else
      assert a == [a[0]] + a[1..];
      if a[0] in b then Without(a[1..], b) else [a[0]] + Without(a[1..], b)
  }

  /** The first n lists of xs, joined. */
  function Flatten<T>(xs: seq<seq<T>>, n: nat): seq<T>
    requires n <= |xs|
  {
    if n == 0 then [] else Flatten(xs, n - 1) + xs[n - 1]
  }

  lemma {:induction false} FiveEmpty<T>(a: seq<T>, b: seq<T>, c: seq<T>, d: seq<T>, e: seq<T>)
    ensures a + b + c + d + e == [] <==> a == [] && b == [] && c == [] && d == [] && e == []
  {
    assert |a + b + c + d + e| == |a| + |b| + |c| + |d| + |e|;
  }

  lemma {:induction false} FlattenEmptyIff<T>(xs: seq<seq<T>>, n: nat)
    requires n <= |xs|
    ensures Flatten(xs, n) == [] <==> forall k :: 0 <= k < n ==> xs[k] == []
  {
    if n > 0 {
      FlattenEmptyIff(xs, n - 1);
      assert |Flatten(xs, n)| == |Flatten(xs, n - 1)| + |xs[n - 1]|;
    }
  }

  /** What a check says of the first n items, joined. */
  function Joined<T, E>(items: seq<T>, check: (nat, T) -> seq<E>, n: nat): seq<E>
    requires n <= |items|
  {
    if n == 0 then [] else Joined(items, check, n - 1) + check(n - 1, items[n - 1])
  }

  lemma {:induction false} JoinedEmptyIff<T, E>(items: seq<T>, check: (nat, T) -> seq<E>, n: nat)
    requires n <= |items|
    ensures Joined(items, check, n) == [] <==> forall k :: 0 <= k < n ==> check(k, items[k]) == []
  {
    if n > 0 {
      JoinedEmptyIff(items, check, n - 1);
      assert |Joined(items, check, n)| == |Joined(items, check, n - 1)| + |check(n - 1, items[n - 1])|;
    }
  }

  lemma {:induction false} JoinedHas<T, E>(items: seq<T>, check: (nat, T) -> seq<E>, n: nat, e: E)
    requires n <= |items|
    ensures e in Joined(items, check, n) <==> exists k :: 0 <= k < n && e in check(k, items[k])
  {
    if n > 0 {
      JoinedHas(items, check, n - 1, e);
    }
  }

  /** The loop over all items that appends what the check says. */
  method JoinChecks<T, E>(items: seq<T>, check: (nat, T) -> seq<E>) returns (errors: seq<E>)
    ensures errors == Joined(items, check, |items|)
  {
    errors := [];
    for index := 0 to |items|
      invariant errors == Joined(items, check, index)
    {
      errors := errors + check(index, items[index]);
    }
  }

  /** The same loop, when the joined lists are named. */
  method JoinLists<T, E>(items: seq<T>, check: (nat, T) -> seq<E>, ghost lists: seq<seq<E>>) returns (errors: seq<E>)
    requires |lists| == |items| && forall k :: 0 <= k < |items| ==> lists[k] == check(k, items[k])
    ensures errors == Flatten(lists, |items|)
  {
    errors := [];
    for index := 0 to |items|
      invariant errors == Flatten(lists, index)
    {
      errors := errors + check(index, items[index]);
    }
  }

  /** How often x occurs among the first n values of xs. */
  function Count<T(==)>(xs: seq<T>, x: T, n: nat): nat
    requires n <= |xs|
  {
    if n == 0 then 0 else Count(xs, x, n - 1) + if xs[n - 1] == x then 1 else 0
  }

  /** White space as Python's str.strip and the regular-expression class \s see it. */
  predicate IsSpace(c: char) {
    var n := c as int;
    || 9 <= n <= 13 || 28 <= n <= 32 || n == 0x85 || n == 0xA0 || n == 0x1680
    || 0x2000 <= n <= 0x200A || n == 0x2028 || n == 0x2029 || n == 0x202F || n == 0x205F || n == 0x3000
  }

  function StripLeft(s: string): string {
    if s != [] && IsSpace(s[0]) then StripLeft(s[1..]) else s
  }

  function StripRight(s: string): string {
    if s != [] && IsSpace(s[|s| - 1]) then StripRight(s[..|s| - 1]) else s
  }

  function Strip(s: string): string {
    StripRight(StripLeft(s))
  }

  function LowerChar(c: char): char {
    if 'A' <= c <= 'Z' then (c as int + 32) as char else c
  }

  function Lower(s: string): string {
    seq(|s|, i requires 0 <= i < |s| => LowerChar(s[i]))
  }

  /** The word occurs in s at position i. */
  predicate OccursAt(s: string, word: string, i: nat) {
    i + |word| <= |s| && s[i..i + |word|] == word
  }

  predicate Contains(s: string, word: string) {
    exists i: nat :: i <= |s| && OccursAt(s, word, i)
  }

  predicate IsDigit(c: char) {
    '0' <= c <= '9'
  }

  /** YYYY-MM-DD. */
  predicate DateShape(s: string) {
    && |s| == 10
    && IsDigit(s[0]) && IsDigit(s[1]) && IsDigit(s[2]) && IsDigit(s[3]) && s[4] == '-'
    && IsDigit(s[5]) && IsDigit(s[6]) && s[7] == '-' && IsDigit(s[8]) && IsDigit(s[9])
  }

  predicate IsHexDigit(c: char) {
    '0' <= c <= '9' || 'a' <= c <= 'f'
  }

  predicate IsLowerHex(s: string, length: nat) {
    |s| == length && forall i :: 0 <= i < |s| ==> IsHexDigit(s[i])
  }

  /** The decimal digits of n. */
  function Decimal(n: nat): string {
    if n < 10 then [(n + '0' as int) as char] else Decimal(n / 10) + [(n % 10 + '0' as int) as char]
  }

  /** White space as Rust's str::trim sees it. */
  predicate IsWhiteSpace(c: char) {
    IsSpace(c) && !(28 <= c as int <= 31)
  }

  /** Trimming leaves nothing. */
  predicate IsBlank(s: string) {
    forall i :: 0 <= i < |s| ==> IsWhiteSpace(s[i])
  }
}
