/**
 * The ranking of Pelisplushd's videos: a stable sort, ascending on a key of
 * three parts read off the video's label (does it name the preferred server,
 * ignoring case; does it contain the preferred quality; the number before the
 * first `p` that follows a run of digits), and then the list reversed. The
 * best videos come first, and videos with equal keys come out in the reverse
 * of their input order.
 */
module PelisplushdRanking {
  import opened Wrappers
  import opened KotlinText
  import opened Media

  const DefaultQuality := "1080"
  const DefaultServer := "Voe"

  /** The two preferences the key reads. */
  datatype Prefs = Prefs(server: string, quality: string)

  // ---------------------------------------------------------------------------
  // The resolution number: the first match of `(\d+)p`

  /** The end of the run of digits that starts at `i`. */
  function RunEnd(s: string, i: nat): (j: nat)
    requires i <= |s|
    decreases |s| - i
    ensures i <= j <= |s|
    ensures forall k :: i <= k < j ==> IsDigit(s[k])
    ensures j == |s| || !IsDigit(s[j])
  {
    if i < |s| && IsDigit(s[i]) then RunEnd(s, i + 1) else i
  }

  /** `(\d+)p` matches at `i`: a run of digits starts there and a `p` follows the whole run. */
  predicate MatchAt(s: string, i: nat)
    requires i < |s|
  {
    IsDigit(s[i]) && RunEnd(s, i) < |s| && s[RunEnd(s, i)] == 'p'
  }

  /** The group of the leftmost match at or after `i`; a run not followed by `p` is skipped whole. */
  function PGroup(s: string, i: nat): Option<string>
    requires i <= |s|
    decreases |s| - i
  {
    if i == |s| then None
    else if !IsDigit(s[i]) then PGroup(s, i + 1)
    else
      var j := RunEnd(s, i);
      if j < |s| && s[j] == 'p' then Some(s[i..j]) else PGroup(s, j)
  }

  /** Inside a run of digits every position has the run's end. */
  lemma {:induction false} RunEndInside(s: string, i: nat, k: nat)
    requires i <= |s| && i <= k <= RunEnd(s, i)
    ensures RunEnd(s, k) == RunEnd(s, i)
    decreases k - i
  {
    if i < k {
      RunEndInside(s, i + 1, k);
    }
  }

  /**
   * The scan finds the leftmost match: with no match from `i` on there is
   * none, and otherwise it is the digits from the first match up to the `p`.
   */
  lemma {:induction false} PGroupLeftmost(s: string, i: nat)
    requires i <= |s|
    decreases |s| - i
    ensures (forall k :: i <= k < |s| ==> !MatchAt(s, k)) ==> PGroup(s, i).None?
    ensures forall m :: i <= m < |s| && MatchAt(s, m) && (forall k :: i <= k < m ==> !MatchAt(s, k)) ==>
      PGroup(s, i) == Some(s[m..RunEnd(s, m)])
  {
    if i < |s| {
      if !IsDigit(s[i]) {
        PGroupLeftmost(s, i + 1);
        assert !MatchAt(s, i);
      } else {
        var j := RunEnd(s, i);
        if j < |s| && s[j] == 'p' {
          assert MatchAt(s, i);
        } else {
          forall k | i <= k < j ensures !MatchAt(s, k) {
            RunEndInside(s, i, k);
          }
          PGroupLeftmost(s, j);
        }
      }
    }
  }

  /** The number of the leftmost `(\d+)p` match in the label, or 0 when there is none or it overflows an `Int`. */
  function QualityNumber(text: string): int {
    match PGroup(text, 0)
    case None => 0
    case Some(digits) =>
      match ParseInt(digits)
      case Some(n) => n
      case None => 0
  }

  /** A run of digits ends at the first position that is not a digit. */
  lemma RunEndAt(s: string, m: nat, e: nat)
    requires m <= e < |s| && !IsDigit(s[e])
    requires forall k :: m <= k < e ==> IsDigit(s[k])
    ensures RunEnd(s, m) == e
  {
    var j := RunEnd(s, m);
    assert !(j < e);
  }

  /** The first match, with nothing matching before it, is the scan's group. */
  lemma PGroupFirst(s: string, m: nat)
    requires m < |s| && MatchAt(s, m)
    requires forall k :: 0 <= k < m ==> !MatchAt(s, k)
    ensures PGroup(s, 0) == Some(s[m..RunEnd(s, m)])
  {
    PGroupLeftmost(s, 0);
  }

  /** In `prefix + digits + "p" + rest`, with no digit in `prefix`, the leftmost match is `digits`. */
  lemma PGroupOf(prefix: string, digits: string, rest: string)
    requires forall k :: 0 <= k < |prefix| ==> !IsDigit(prefix[k])
    requires digits != [] && AllDigits(digits)
    ensures PGroup(prefix + digits + "p" + rest, 0) == Some(digits)
  {
    var s := prefix + digits + "p" + rest;
    var m := |prefix|;
    var e := m + |digits|;
    assert s[m..e] == digits;
    assert s[e] == 'p';
    assert forall k :: m <= k < e ==> IsDigit(s[k]) by {
      forall k | m <= k < e ensures IsDigit(s[k]) {
        assert s[k] == digits[k - m];
      }
    }
    RunEndAt(s, m, e);
    forall k | 0 <= k < m ensures !MatchAt(s, k) {
      assert s[k] == prefix[k];
    }
    PGroupFirst(s, m);
  }

  /** A label whose first digits are a resolution followed by `p` ranks by that resolution. */
  lemma QualityNumberOf(prefix: string, n: nat, rest: string)
    requires forall k :: 0 <= k < |prefix| ==> !IsDigit(prefix[k])
    requires n <= IntMax
    ensures QualityNumber(prefix + NatToString(n) + "p" + rest) == n
  {
    PGroupOf(prefix, NatToString(n), rest);
    ParseIntToString(n);
    assert IntToString(n) == NatToString(n);
  }

  // ---------------------------------------------------------------------------
  // The key and its order

  /** `compareBy` over the three selectors: false before true, smaller numbers first. */
  datatype RankKey = RankKey(server: bool, quality: bool, number: int)

  predicate KeyLess(a: RankKey, b: RankKey) {
    || (!a.server && b.server)
    || (a.server == b.server && !a.quality && b.quality)
    || (a.server == b.server && a.quality == b.quality && a.number < b.number)
  }

  function Key(v: Video, prefs: Prefs): RankKey {
    RankKey(ContainsIgnoreCase(v.quality, prefs.server), Contains(v.quality, prefs.quality), QualityNumber(v.quality))
  }

  /** The key under the given preferences, as the selector `compareBy` applies. */
  function KeyOf(prefs: Prefs): Video -> RankKey {
    v => Key(v, prefs)
  }

  /** The order of keys is a strict total order. */
  lemma KeyOrder(a: RankKey, b: RankKey, c: RankKey)
    ensures !KeyLess(a, a)
    ensures KeyLess(a, b) && KeyLess(b, c) ==> KeyLess(a, c)
    ensures a != b ==> KeyLess(a, b) || KeyLess(b, a)
  {
  }

  // ---------------------------------------------------------------------------
  // The stable sort and the reversal

  /** Insert `x` after every element whose key is not greater than its own. */
  function Insert(x: Video, s: seq<Video>, key: Video -> RankKey): seq<Video> {
    if s == [] then [x]
    else if KeyLess(key(x), key(s[0])) then [x] + s
    else [s[0]] + Insert(x, s[1..], key)
  }

  /** `sortedWith(compareBy(…))`: stable, ascending. */
  function SortAscending(vs: seq<Video>, key: Video -> RankKey): seq<Video> {
    if vs == [] then [] else Insert(vs[|vs| - 1], SortAscending(vs[..|vs| - 1], key), key)
  }

  /** `List<Video>.sort()`: the stable ascending sort, reversed. */
  function Rank(vs: seq<Video>, prefs: Prefs): seq<Video> {
    Reversed(SortAscending(vs, KeyOf(prefs)))
  }

  predicate Ascending(s: seq<Video>, key: Video -> RankKey) {
    forall i, j :: 0 <= i < j < |s| ==> !KeyLess(key(s[j]), key(s[i]))
  }

  predicate Descending(s: seq<Video>, key: Video -> RankKey) {
    forall i, j :: 0 <= i < j < |s| ==> !KeyLess(key(s[i]), key(s[j]))
  }

  /** The videos of `s` whose key is `k`, in order. */
  function WithKey(s: seq<Video>, k: RankKey, key: Video -> RankKey): seq<Video> {
    if s == [] then [] else (if key(s[0]) == k then [s[0]] else []) + WithKey(s[1..], k, key)
  }

  lemma {:induction false} WithKeyAppend(a: seq<Video>, b: seq<Video>, k: RankKey, key: Video -> RankKey)
    ensures WithKey(a + b, k, key) == WithKey(a, k, key) + WithKey(b, k, key)
  {
    if a != [] {
      assert (a + b)[1..] == a[1..] + b;
      WithKeyAppend(a[1..], b, k, key);
    } else {
      assert a + b == b;
    }
  }

  /** A list none of whose videos has key `k` has no videos of key `k`. */
  lemma {:induction false} WithKeyNone(s: seq<Video>, k: RankKey, key: Video -> RankKey)
    requires forall i :: 0 <= i < |s| ==> key(s[i]) != k
    ensures WithKey(s, k, key) == []
  {
    if s != [] {
      assert forall i :: 0 <= i < |s[1..]| ==> s[1..][i] == s[i + 1];
      WithKeyNone(s[1..], k, key);
    }
  }

  /** An ascending list stays ascending without its first element. */
  lemma AscendingTail(s: seq<Video>, key: Video -> RankKey)
    requires s != [] && Ascending(s, key)
    ensures Ascending(s[1..], key)
  {
    forall i, j | 0 <= i < j < |s[1..]| ensures !KeyLess(key(s[1..][j]), key(s[1..][i])) {
      assert s[1..][i] == s[i + 1] && s[1..][j] == s[j + 1];
    }
  }

  /** A video no greater than every element of an ascending list may lead it. */
  lemma AscendingCons(x: Video, s: seq<Video>, key: Video -> RankKey)
    requires Ascending(s, key)
    requires forall j :: 0 <= j < |s| ==> !KeyLess(key(s[j]), key(x))
    ensures Ascending([x] + s, key)
  {
    var r := [x] + s;
    forall i, j | 0 <= i < j < |r| ensures !KeyLess(key(r[j]), key(r[i])) {
      assert r[j] == s[j - 1];
      if i > 0 {
        assert r[i] == s[i - 1];
      }
    }
  }

  /** Insertion adds `x` and nothing else. */
  lemma {:induction false} InsertMultiset(x: Video, s: seq<Video>, key: Video -> RankKey)
    ensures multiset(Insert(x, s, key)) == multiset(s) + multiset{x}
  {
    if s != [] && !KeyLess(key(x), key(s[0])) {
      InsertMultiset(x, s[1..], key);
      assert s == [s[0]] + s[1..];
    }
  }

  /** Insertion keeps a list ascending. */
  lemma {:induction false} InsertAscending(x: Video, s: seq<Video>, key: Video -> RankKey)
    requires Ascending(s, key)
    ensures Ascending(Insert(x, s, key), key)
  {
    if s == [] {
    } else if KeyLess(key(x), key(s[0])) {
      forall j | 0 <= j < |s| ensures !KeyLess(key(s[j]), key(x)) {
        KeyOrder(key(s[j]), key(x), key(s[0]));
      }
      AscendingCons(x, s, key);
    } else {
      var t := Insert(x, s[1..], key);
      AscendingTail(s, key);
      InsertAscending(x, s[1..], key);
      InsertMultiset(x, s[1..], key);
      forall j | 0 <= j < |t| ensures !KeyLess(key(t[j]), key(s[0])) {
        assert t[j] in multiset(s[1..]) + multiset{x};
        if t[j] != x {
          var m :| 0 <= m < |s[1..]| && s[1..][m] == t[j];
          assert s[m + 1] == t[j];
        }
      }
      AscendingCons(s[0], t, key);
    }
  }

  /** Insertion into an ascending list puts `x` after the videos of its own key. */
  lemma {:induction false} InsertWithKey(x: Video, s: seq<Video>, key: Video -> RankKey, k: RankKey)
    requires Ascending(s, key)
    ensures WithKey(Insert(x, s, key), k, key) == WithKey(s, k, key) + (if key(x) == k then [x] else [])
  {
    if s == [] {
    } else if KeyLess(key(x), key(s[0])) {
      if key(x) == k {
        forall j | 0 <= j < |s| ensures key(s[j]) != k {
          KeyOrder(key(s[j]), key(x), key(s[0]));
        }
        WithKeyNone(s, k, key);
      }
      WithKeyAppend([x], s, k, key);
    } else {
      var t := Insert(x, s[1..], key);
      AscendingTail(s, key);
      InsertWithKey(x, s[1..], key, k);
      assert s == [s[0]] + s[1..];
      WithKeyAppend([s[0]], t, k, key);
      WithKeyAppend([s[0]], s[1..], k, key);
    }
  }

  /** The ascending sort is a permutation. */
  lemma {:induction false} SortAscendingMultiset(vs: seq<Video>, key: Video -> RankKey)
    ensures multiset(SortAscending(vs, key)) == multiset(vs)
  {
    if vs != [] {
      var init, x := vs[..|vs| - 1], vs[|vs| - 1];
      assert vs == init + [x];
      assert multiset(vs) == multiset(init) + multiset{x};
      SortAscendingMultiset(init, key);
      InsertMultiset(x, SortAscending(init, key), key);
    }
  }

  /**
   * The ascending sort is ascending, and keeps the videos of each key in
   * their input order (it is stable).
   */
  lemma {:induction false} SortAscendingSpec(vs: seq<Video>, key: Video -> RankKey, k: RankKey)
    ensures Ascending(SortAscending(vs, key), key)
    ensures WithKey(SortAscending(vs, key), k, key) == WithKey(vs, k, key)
  {
    if vs != [] {
      var init := vs[..|vs| - 1];
      var x := vs[|vs| - 1];
      SortAscendingSpec(init, key, k);
      InsertAscending(x, SortAscending(init, key), key);
      InsertWithKey(x, SortAscending(init, key), key, k);
      assert vs == init + [x];
      WithKeyAppend(init, [x], k, key);
    }
  }

  /** Reversing a concatenation reverses the parts and swaps them. */
  lemma ReversedAppend<T>(a: seq<T>, b: seq<T>)
    ensures Reversed(a + b) == Reversed(b) + Reversed(a)
  {
    var l := Reversed(a + b);
    var r := Reversed(b) + Reversed(a);
    assert |l| == |r|;
    forall i | 0 <= i < |l| ensures l[i] == r[i] {
      if i < |b| {
        assert r[i] == Reversed(b)[i] == b[|b| - 1 - i];
      } else {
        assert r[i] == Reversed(a)[i - |b|] == a[|a| - 1 - (i - |b|)];
      }
    }
  }

  /** The videos of one key in a reversed list are those of the list, reversed. */
  lemma {:induction false} WithKeyReversed(s: seq<Video>, k: RankKey, key: Video -> RankKey)
    ensures WithKey(Reversed(s), k, key) == Reversed(WithKey(s, k, key))
  {
    if s != [] {
      var last := s[|s| - 1];
      var init := s[..|s| - 1];
      assert s == init + [last];
      ReversedSnoc(init, last);
      WithKeyReversed(init, k, key);
      WithKeyAppend([last], Reversed(init), k, key);
      WithKeyAppend(init, [last], k, key);
      ReversedAppend(WithKey(init, k, key), WithKey([last], k, key));
      assert Reversed(WithKey([last], k, key)) == WithKey([last], k, key);
    }
  }

  /**
   * The ranking is a permutation of its input, ordered best first, and the
   * videos of any one key appear in the reverse of their input order.
   */
  lemma RankSpec(vs: seq<Video>, prefs: Prefs, k: RankKey)
    ensures multiset(Rank(vs, prefs)) == multiset(vs)
    ensures Descending(Rank(vs, prefs), KeyOf(prefs))
    ensures WithKey(Rank(vs, prefs), k, KeyOf(prefs)) == Reversed(WithKey(vs, k, KeyOf(prefs)))
  {
    var key := KeyOf(prefs);
    var asc := SortAscending(vs, key);
    SortAscendingMultiset(vs, key);
    SortAscendingSpec(vs, key, k);
    ReversedMultiset(asc);
    WithKeyReversed(asc, k, key);
    var r := Rank(vs, prefs);
    forall i, j | 0 <= i < j < |r| ensures !KeyLess(key(r[i]), key(r[j])) {
      assert r[i] == asc[|asc| - 1 - i] && r[j] == asc[|asc| - 1 - j];
    }
  }

  // ---------------------------------------------------------------------------
  // Two lists worked through

  /** A text without the first character of `d` does not contain `d`. */
  lemma LacksFirstChar(s: string, d: string)
    requires d != [] && d[0] !in s
    ensures !Contains(s, d)
  {
    forall j | 0 <= j ensures !OccursAt(s, d, j) {
      if j + |d| <= |s| {
        assert s[j..j + |d|][0] == s[j] != d[0];
      }
    }
  }

  /** A label that starts with the digits of `n` and a `p` ranks as `n`. */
  lemma LabelNumber(text: string, n: nat, digits: string, rest: string)
    requires n <= IntMax && digits == NatToString(n) && text == digits + "p" + rest
    ensures QualityNumber(text) == n
  {
    QualityNumberOf("", n, rest);
    assert "" + digits + "p" + rest == text;
  }

  /** A label with `d` inside names `d`. */
  lemma NamesInside(before: string, d: string, after: string)
    ensures ContainsIgnoreCase(before + d + after, d)
  {
    LowercaseAppend(before + d, after);
    LowercaseAppend(before, d);
    var lower := Lowercase(before + d + after);
    assert lower == Lowercase(before) + Lowercase(d) + Lowercase(after);
    assert lower[|before|..|before| + |d|] == Lowercase(d);
    assert OccursAt(lower, Lowercase(d), |before|);
  }

  /** A label without the first letter of `d`, in either case, does not name `d`. */
  lemma LacksName(text: string, d: string)
    requires d != [] && forall k :: 0 <= k < |text| ==> LowerChar(text[k]) != LowerChar(d[0])
    ensures !ContainsIgnoreCase(text, d)
  {
    var lower := Lowercase(text);
    assert Lowercase(d)[0] == LowerChar(d[0]);
    assert Lowercase(d)[0] !in lower by {
      forall k | 0 <= k < |lower| ensures lower[k] != Lowercase(d)[0] {
        assert lower[k] == LowerChar(text[k]);
      }
    }
    LacksFirstChar(lower, Lowercase(d));
  }

  /** The decimal digits of 480. */
  lemma Digits480()
    ensures NatToString(480) == "480"
  {
    assert NatToString(48) == "48";
  }

  /** The decimal digits of 720. */
  lemma Digits720()
    ensures NatToString(720) == "720"
  {
    assert NatToString(72) == "72";
  }

  /** The decimal digits of 1080. */
  lemma Digits1080()
    ensures NatToString(1080) == "1080"
  {
    assert NatToString(108) == "108";
  }

  /** "480p" names neither Voe nor 720, and ranks as 480. */
  lemma Key480(v: Video, prefs: Prefs)
    requires v.quality == "480p" && prefs == Prefs("Voe", "720")
    ensures Key(v, prefs) == RankKey(false, false, 480)
  {
    assert v.quality == "480" + "p" + "";
    LacksFirstChar(v.quality, prefs.quality);
    LacksName(v.quality, prefs.server);
    Digits480();
    LabelNumber(v.quality, 480, "480", "");
  }

  /** "720p (Voe)" names Voe and 720, and ranks as 720. */
  lemma Key720Voe(v: Video, prefs: Prefs)
    requires v.quality == "720p (Voe)" && prefs == Prefs("Voe", "720")
    ensures Key(v, prefs) == RankKey(true, true, 720)
  {
    assert v.quality == "720p (" + prefs.server + ")";
    assert OccursAt(v.quality, prefs.quality, 0);
    Digits720();
    LabelNumber(v.quality, 720, "720", " (Voe)");
    NamesInside("720p (", prefs.server, ")");
  }

  /** "1080p" names neither Voe nor 720, and ranks as 1080. */
  lemma Key1080(v: Video, prefs: Prefs)
    requires v.quality == "1080p" && prefs == Prefs("Voe", "720")
    ensures Key(v, prefs) == RankKey(false, false, 1080)
  {
    assert v.quality == "1080" + "p" + "";
    LacksFirstChar(v.quality, prefs.quality);
    LacksName(v.quality, prefs.server);
    Digits1080();
    LabelNumber(v.quality, 1080, "1080", "");
  }

  /** Three videos with keys ordered `b > c > a` rank as `b, c, a`. */
  lemma RankOfThree(a: Video, b: Video, c: Video, prefs: Prefs)
    requires KeyLess(Key(a, prefs), Key(c, prefs)) && KeyLess(Key(c, prefs), Key(b, prefs))
    ensures Rank([a, b, c], prefs) == [b, c, a]
  {
    var key := KeyOf(prefs);
    KeyOrder(key(a), key(c), key(b));
    KeyOrder(key(b), key(a), key(a));
    KeyOrder(key(c), key(a), key(a));
    assert [a, b, c][..2] == [a, b] && [a, b][..1] == [a];
    assert SortAscending([a], key) == [a];
    assert SortAscending([a, b], key) == Insert(b, [a], key) == [a, b];
    assert Insert(c, [b], key) == [c, b];
    assert SortAscending([a, b, c], key) == Insert(c, [a, b], key) == [a, c, b];
  }

  /** With server Voe and quality 720, the Voe 720p video leads, then 1080p, then 480p. */
  lemma RankExample(a: Video, b: Video, c: Video, prefs: Prefs)
    requires a.quality == "480p" && b.quality == "720p (Voe)" && c.quality == "1080p"
    requires prefs == Prefs("Voe", "720")
    ensures Rank([a, b, c], prefs) == [b, c, a]
  {
    Key480(a, prefs);
    Key720Voe(b, prefs);
    Key1080(c, prefs);
    RankOfThree(a, b, c, prefs);
  }

  /** Ranking twice is not ranking once: two videos with equal keys swap every time. */
  lemma RankNotIdempotent()
    ensures var a := Video("a", "x", "a", []);
      var b := Video("b", "y", "b", []);
      && Rank([a, b], Prefs(DefaultServer, DefaultQuality)) == [b, a]
      && Rank([b, a], Prefs(DefaultServer, DefaultQuality)) == [a, b]
  {
    var a := Video("a", "x", "a", []);
    var b := Video("b", "y", "b", []);
    var key := KeyOf(Prefs(DefaultServer, DefaultQuality));
    assert Lowercase("x") == "x" && Lowercase("y") == "y" && Lowercase(DefaultServer) == "voe";
    assert PGroup("x", 0).None? && PGroup("y", 0).None?;
    assert key(a) == RankKey(false, false, 0) == key(b);
    assert [a, b][..1] == [a] && [b, a][..1] == [b];
    assert SortAscending([a, b], key) == Insert(b, [a], key) == [a, b];
    assert SortAscending([b, a], key) == Insert(a, [b], key) == [b, a];
  }
}
