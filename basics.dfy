/** Small value types and string helpers shared by the server and client models. */
module Basics {

  /** A JavaScript value that may be `undefined`. */
  datatype Option<+T> = None | Some(value: T)

  function Min(a: int, b: int): (m: int)
    ensures m <= a && m <= b && (m == a || m == b)
  {
    if a <= b then a else b
  }

  /** `String.prototype.toLowerCase` restricted to ASCII letters. */
  function LowerChar(c: char): (d: char)
    ensures 'A' <= c <= 'Z' ==> d as int == c as int + 32
    ensures !('A' <= c <= 'Z') ==> d == c
  {
    if 'A' <= c <= 'Z' then (c as int + 32) as char else c
  }

  function Lower(s: string): (t: string)
    ensures |t| == |s|
    ensures forall i :: 0 <= i < |s| ==> t[i] == LowerChar(s[i])
  {
    if s == [] then [] else [LowerChar(s[0])] + Lower(s[1..])
  }

  /** `hay.includes(needle)`: `needle` occurs as a contiguous block of `hay`. */
  predicate Contains(hay: string, needle: string) {
    exists i :: 0 <= i <= |hay| - |needle| && OccursAt(hay, needle, i)
  }

  predicate OccursAt(hay: string, needle: string, i: int)
    requires 0 <= i <= |hay| - |needle|
  {
    hay[i..i + |needle|] == needle
  }

  /** `xs` keeps a selection of the elements of `ys` in their original order. */
  predicate IsSubsequence<T(==)>(xs: seq<T>, ys: seq<T>)
    decreases |ys|
  {
    if ys == [] then xs == []
    else (xs != [] && xs[0] == ys[0] && IsSubsequence(xs[1..], ys[1..])) || IsSubsequence(xs, ys[1..])
  }

  /** Number of entries of `xs` that belong to `keys`: the `filter(...).length` idiom. */
  function CountIn(xs: seq<string>, keys: set<string>): (n: nat)
    ensures n <= |xs|
  {
    if xs == [] then 0
    else (if xs[0] in keys then 1 else 0) + CountIn(xs[1..], keys)
  }

  /** Counting two disjoint key sets separately is counting their union. */
  lemma {:induction false} CountInUnion(xs: seq<string>, a: set<string>, b: set<string>)
    requires a !! b
    ensures CountIn(xs, a) + CountIn(xs, b) == CountIn(xs, a + b)
  {
    if xs != [] {
      CountInUnion(xs[1..], a, b);
    }
  }

  /** No entry of `xs` is a key, so nothing is counted. */
  lemma {:induction false} CountInNone(xs: seq<string>, keys: set<string>)
    requires forall i :: 0 <= i < |xs| ==> xs[i] !in keys
    ensures CountIn(xs, keys) == 0
  {
    if xs != [] {
      CountInNone(xs[1..], keys);
    }
  }

  /** How many UTF-16 code units a character takes: two for one outside the Basic Multilingual Plane. */
  function CodeUnits(c: char): (n: nat)
    ensures n == 1 || n == 2
    ensures n == 2 <==> c as int > 0xFFFF
  {
    if c as int > 0xFFFF then 2 else 1
  }

  /** `s.length` in JavaScript: the number of UTF-16 code units, not of characters. */
  function JsLength(s: string): (n: nat)
    ensures |s| <= n <= 2 * |s|
  {
    if s == [] then 0 else CodeUnits(s[0]) + JsLength(s[1..])
  }

  /** The length of a concatenation is the sum of the lengths. */
  lemma {:induction false} JsLengthAppend(p: string, q: string)
    ensures JsLength(p + q) == JsLength(p) + JsLength(q)
  {
    if p == [] {
      assert p + q == q;
    } else {
      assert (p + q)[1..] == p[1..] + q;
      JsLengthAppend(p[1..], q);
    }
  }

  /** Decimal digits of a natural number, as template literals print it. */
  function Digits(n: nat): (s: string)
    ensures |s| >= 1
    ensures forall i :: 0 <= i < |s| ==> '0' <= s[i] <= '9'
  {
    if n < 10 then [('0' as int + n) as char]
    else Digits(n / 10) + [('0' as int + n % 10) as char]
  }

  /** The number a string of decimal digits spells. */
  function DigitsValue(s: string): (v: nat)
    requires forall i :: 0 <= i < |s| ==> '0' <= s[i] <= '9'
  {
    if s == [] then 0
    else DigitsValue(s[..|s| - 1]) * 10 + (s[|s| - 1] as int - '0' as int)
  }

  /** Reading the digits back gives the number, so different numbers get different digits. */
  lemma {:induction false} DigitsRoundTrip(n: nat)
    ensures DigitsValue(Digits(n)) == n
  {
    if n >= 10 {
      DigitsRoundTrip(n / 10);
      assert Digits(n)[..|Digits(n)| - 1] == Digits(n / 10);
    }
  }

  lemma DigitsInjective(m: nat, n: nat)
    ensures Digits(m) == Digits(n) <==> m == n
  {
    DigitsRoundTrip(m);
    DigitsRoundTrip(n);
  }
}
