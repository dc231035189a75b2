/**
 * The parts of Kotlin's standard library that the two sources lean on, with the
 * meaning Kotlin gives them: `indexOf`, `contains`, `substringBefore`,
 * `substringAfter` (with and without a `missingDelimiterValue`), `startsWith`,
 * `lowercase`, `replace`, `reversed`, `isDigit`, `isBlank`, `toString` and
 * `toInt` of an `Int`, truncating `Int` division and string templates.
 */
module KotlinText {
  import opened Wrappers

  /** A nullable string as a Kotlin string template renders it. */
  function Show(o: Option<string>): string {
    match o
    case Some(s) => s
    case None => "null"
  }

  /** `d` occurs in `s` starting at position `j`. */
  predicate OccursAt(s: string, d: string, j: int) {
    0 <= j && j + |d| <= |s| && s[j..j + |d|] == d
  }

  /** `s.indexOf(d, from)`: the first position at or after `from` where `d` occurs, or -1. */
  function IndexFrom(s: string, d: string, from: nat): (r: int)
    decreases |s| - from
    ensures r == -1 || (from <= r && OccursAt(s, d, r))
    ensures forall j :: from <= j && (r == -1 || j < r) ==> !OccursAt(s, d, j)
  {
    if from + |d| > |s| then -1
    else if s[from..from + |d|] == d then from
    else IndexFrom(s, d, from + 1)
  }

  /** `s.indexOf(d)`. */
  function IndexOf(s: string, d: string): (r: int)
    ensures r == -1 || OccursAt(s, d, r)
    ensures forall j :: 0 <= j && (r == -1 || j < r) ==> !OccursAt(s, d, j)
  {
    IndexFrom(s, d, 0)
  }

  /** `s.contains(d)`. */
  function Contains(s: string, d: string): (b: bool)
    ensures b <==> exists j :: OccursAt(s, d, j)
  {
    IndexOf(s, d) >= 0
  }

  /** An occurrence inside a prefix of `s` is an occurrence in `s` that ends inside the prefix. */
  lemma OccursInPrefix(s: string, d: string, k: nat, j: int)
    requires k <= |s| && OccursAt(s[..k], d, j)
    ensures OccursAt(s, d, j) && j + |d| <= k
  {
    assert s[..k][j..j + |d|] == s[j..j + |d|];
  }

  /** A prefix of a string that lacks `d` lacks `d` too. */
  lemma PrefixLacks(s: string, p: string, d: string)
    requires p <= s && !Contains(s, d)
    ensures !Contains(p, d)
  {
    assert p == s[..|p|];
    if j :| OccursAt(p, d, j) {
      OccursInPrefix(s, d, |p|, j);
    }
  }

  /** Text before the first occurrence of `d` (all of `s` when `s` lacks `d` is Kotlin's default). */
  function SubstringBefore(s: string, d: string, missing: string): (r: string)
    ensures !Contains(s, d) ==> r == missing
    ensures Contains(s, d) ==> r + d <= s
    ensures Contains(s, d) && d != [] ==> !Contains(r, d)
  {
    var i := IndexOf(s, d);
    if i < 0 then missing
    else
      BeforeFirstOccurrence(s, d, i);
      s[..i]
  }

  /** The text before the first occurrence of `d` is followed by `d` and holds no `d` of its own. */
  lemma BeforeFirstOccurrence(s: string, d: string, i: int)
    requires OccursAt(s, d, i) && forall j :: 0 <= j < i ==> !OccursAt(s, d, j)
    ensures s[..i] + d <= s
    ensures d != [] ==> !Contains(s[..i], d)
  {
    assert s[..i] + d == s[..i + |d|];
    if d != [] {
      forall j | OccursAt(s[..i], d, j) ensures false {
        OccursInPrefix(s, d, i, j);
      }
    }
  }

  /** Text after the first occurrence of `d`. */
  function SubstringAfter(s: string, d: string, missing: string): (r: string)
    ensures !Contains(s, d) ==> r == missing
    ensures Contains(s, d) ==> s == SubstringBefore(s, d, missing) + d + r
  {
    var i := IndexOf(s, d);
    if i < 0 then missing
    else
      assert s == s[..i] + s[i..i + |d|] + s[i + |d|..];
      s[i + |d|..]
  }

  /** Around the first occurrence of `d`: when `a` lacks `d`'s first character, `a + d + b` splits into `a` and `b`. */
  lemma SplitAtFirst(a: string, d: string, b: string, missing: string)
    requires d != [] && d[0] !in a
    ensures Contains(a + d + b, d)
    ensures SubstringBefore(a + d + b, d, missing) == a
    ensures SubstringAfter(a + d + b, d, missing) == b
  {
    var s := a + d + b;
    assert s[|a|..|a| + |d|] == d;
    assert OccursAt(s, d, |a|);
    forall j | 0 <= j < |a| ensures !OccursAt(s, d, j) {
      assert s[j] == a[j];
    }
    assert IndexOf(s, d) == |a|;
    assert s[..|a|] == a;
    assert s[|a| + |d|..] == b;
  }

  /** A string without the character `c` does not contain `[c]`. */
  lemma CharAbsent(s: string, c: char)
    requires c !in s
    ensures !Contains(s, [c])
  {
    if j :| OccursAt(s, [c], j) {
      assert s[j..j + 1][0] == s[j];
    }
  }

  /** When `s` lacks `d`, `s.substringBefore(d)` gives `s` back. */
  lemma BeforeAbsentIsIdentity(s: string, d: string)
    requires !Contains(s, d)
    ensures SubstringBefore(s, d, s) == s
  {
  }

  /** A string that contains `d` contains it after anything is added around it. */
  lemma ContainsInside(a: string, s: string, b: string, d: string)
    requires Contains(s, d)
    ensures Contains(a + s + b, d)
  {
    var j :| OccursAt(s, d, j);
    assert (a + s + b)[|a| + j..|a| + j + |d|] == s[j..j + |d|];
    assert OccursAt(a + s + b, d, |a| + j);
  }

  /** Containment is transitive: if `s` contains `t` and `t` contains `d`, `s` contains `d`. */
  lemma ContainsTransitive(s: string, t: string, d: string)
    requires Contains(s, t) && Contains(t, d)
    ensures Contains(s, d)
  {
    var i :| OccursAt(s, t, i);
    var j :| OccursAt(t, d, j);
    assert s[i..i + |t|] == t;
    forall k | 0 <= k < |d| ensures s[i + j + k] == d[k] {
      assert s[i..i + |t|][j + k] == t[j + k];
      assert t[j..j + |d|][k] == d[k];
    }
    assert s[i + j..i + j + |d|] == d;
    assert OccursAt(s, d, i + j);
  }

  /** `s.startsWith(p)`. */
  predicate StartsWith(s: string, p: string) {
    p <= s
  }

  /** `c.lowercaseChar()`, for the ASCII letters. */
  function LowerChar(c: char): char {
    if 'A' <= c <= 'Z' then (c as int + 32) as char else c
  }

  /** `s.lowercase()`, for the ASCII letters. */
  function Lowercase(s: string): string {
    seq(|s|, i requires 0 <= i < |s| => LowerChar(s[i]))
  }

  lemma LowercaseAppend(a: string, b: string)
    ensures Lowercase(a + b) == Lowercase(a) + Lowercase(b)
  {
  }

  /** `s.contains(d, ignoreCase = true)`. */
  function ContainsIgnoreCase(s: string, d: string): bool {
    Contains(Lowercase(s), Lowercase(d))
  }

  /** `s.replace(target, replacement)`: every non-overlapping occurrence, left to right. */
  function ReplaceAll(s: string, target: string, replacement: string): (r: string)
    requires target != []
    decreases |s|
    ensures !Contains(s, target) ==> r == s
  {
    if |s| < |target| then s
    else if s[..|target|] == target then
      assert OccursAt(s, target, 0);
      replacement + ReplaceAll(s[|target|..], target, replacement)
    else
      assert s == [s[0]] + s[1..];
      assert forall j :: OccursAt(s[1..], target, j) ==> OccursAt(s, target, j + 1) by {
        forall j | OccursAt(s[1..], target, j) ensures OccursAt(s, target, j + 1) {
          assert s[1..][j..j + |target|] == s[j + 1..j + 1 + |target|];
        }
      }
      [s[0]] + ReplaceAll(s[1..], target, replacement)
  }

  /** `s.reversed()`. */
  function Reversed<T>(s: seq<T>): (r: seq<T>)
    ensures |r| == |s|
    ensures forall k :: 0 <= k < |s| ==> r[k] == s[|s| - 1 - k]
  {
    if s == [] then [] else [s[|s| - 1]] + Reversed(s[..|s| - 1])
  }

  /** Appending to a list and then reversing it puts the new element at the front. */
  lemma ReversedSnoc<T>(s: seq<T>, x: T)
    ensures Reversed(s + [x]) == [x] + Reversed(s)
  {
    assert (s + [x])[..|s|] == s;
  }

  /** Reversing is a permutation. */
  lemma {:induction false} ReversedMultiset<T>(s: seq<T>)
    ensures multiset(Reversed(s)) == multiset(s)
  {
    if s != [] {
      ReversedMultiset(s[..|s| - 1]);
      assert s == s[..|s| - 1] + [s[|s| - 1]];
    }
  }

  /** `c.isDigit()`, for the ASCII digits (the ones Java's regex class `\d` matches). */
  predicate IsDigit(c: char) {
    '0' <= c <= '9'
  }

  predicate AllDigits(s: string) {
    forall i :: 0 <= i < |s| ==> IsDigit(s[i])
  }

  /** `c.isWhitespace()`, for the ASCII white space. */
  predicate IsWhitespace(c: char) {
    c == ' ' || '\t' <= c <= '\r' || '\U{1C}' <= c <= '\U{1F}'
  }

  /** `s.isBlank()`. */
  predicate IsBlank(s: string) {
    forall i :: 0 <= i < |s| ==> IsWhitespace(s[i])
  }

  function DigitChar(n: nat): (c: char)
    requires n < 10
    ensures IsDigit(c) && c as int - '0' as int == n
  {
    ('0' as int + n) as char
  }

  /** The number a string of decimal digits spells. */
  function DigitsValue(s: string): nat
    requires AllDigits(s)
  {
    if s == [] then 0 else DigitsValue(s[..|s| - 1]) * 10 + (s[|s| - 1] as int - '0' as int)
  }

  /** Decimal rendering of a natural number, as Kotlin's `Int.toString()` writes it. */
  function NatToString(n: nat): (r: string)
    ensures r != [] && AllDigits(r)
    ensures DigitsValue(r) == n
  {
    if n < 10 then [DigitChar(n)]
    else
      var r := NatToString(n / 10) + [DigitChar(n % 10)];
      assert r[..|r| - 1] == NatToString(n / 10);
      r
  }

  /** `n.toString()` for an `Int`. */
  function IntToString(n: int): (r: string)
    ensures n < 0 <==> StartsWith(r, "-")
  {
    if n < 0 then "-" + NatToString(-n)
    else
      var r := NatToString(n);
      assert IsDigit(r[0]);
      r
  }

  const IntMin := -0x8000_0000
  const IntMax := 0x7fff_ffff

  predicate IsInt(n: int) {
    IntMin <= n <= IntMax
  }

  /** Kotlin's `Int` multiplication `a * b`: the product wrapped into 32 bits. */
  function IntTimes(a: int, b: int): (r: int)
    ensures IsInt(r)
    ensures (r - a * b) % 0x1_0000_0000 == 0
    ensures IsInt(a * b) ==> r == a * b
  {
    (a * b - IntMin) % 0x1_0000_0000 + IntMin
  }

  /** A product just past `Int.MAX_VALUE` wraps once, to a negative number. */
  lemma IntTimesWrapsOnce(a: int, b: int)
    requires IntMax < a * b < 0x1_0000_0000
    ensures IntTimes(a, b) == a * b - 0x1_0000_0000 < 0
  {
    var x := a * b - IntMin;
    assert 0x1_0000_0000 <= x < 2 * 0x1_0000_0000;
    assert x % 0x1_0000_0000 == x - 0x1_0000_0000 by {
      var y := x - 0x1_0000_0000;
      assert 0 <= y < 0x1_0000_0000;
      assert x / 0x1_0000_0000 == 1;
    }
  }

  /**
   * `s.toInt()`: an optional `+` or `-` and at least one decimal digit, with a
   * value an `Int` can hold; anything else throws (null here).
   */
  function ParseInt(s: string): (r: Option<int>)
    ensures r.Some? ==> IsInt(r.value)
  {
    var negative := |s| > 0 && s[0] == '-';
    var digits := if |s| > 0 && (s[0] == '-' || s[0] == '+') then s[1..] else s;
    if digits == [] || !AllDigits(digits) then None
    else
      var v: int := DigitsValue(digits);
      var n := if negative then -v else v;
      if IsInt(n) then Some(n) else None
  }

  /** Reading back what `toString` wrote gives the number back. */
  lemma ParseIntToString(n: int)
    requires IsInt(n)
    ensures ParseInt(IntToString(n)) == Some(n)
  {
    if n < 0 {
      assert IntToString(n)[1..] == NatToString(-n);
    } else {
      assert IsDigit(NatToString(n)[0]);
    }
  }

  /** Kotlin's `Int` division `a / b`, which truncates toward zero. */
  function TruncDiv(a: int, b: int): (q: int)
    requires b > 0
    ensures a >= 0 ==> q * b <= a < q * b + b
    ensures a < 0 ==> q * b - b < a <= q * b
  {
    if a >= 0 then a / b else -((-a) / b)
  }

  /** `s.substringAfterLast(c)`, which is also `s.split(c).last()`. */
  function AfterLast(s: string, c: char): (r: string)
    ensures c !in r
    ensures |r| <= |s| && s[|s| - |r|..] == r
    ensures |r| < |s| ==> s[|s| - |r| - 1] == c
  {
    if s == [] then []
    else if s[|s| - 1] == c then []
    else AfterLast(s[..|s| - 1], c) + [s[|s| - 1]]
  }

  /** What follows the last `c` of `a + b` lies in `b` when `b` holds a `c`. */
  lemma {:induction false} AfterLastAppend(a: string, b: string, c: char)
    requires c in b
    ensures AfterLast(a + b, c) == AfterLast(b, c)
    decreases |b|
  {
    var n := |b| - 1;
    assert (a + b)[|a + b| - 1] == b[n];
    if b[n] != c {
      assert (a + b)[..|a + b| - 1] == a + b[..n];
      var k :| 0 <= k < |b| && b[k] == c;
      assert b[..n][k] == c;
      AfterLastAppend(a, b[..n], c);
    }
  }
}
