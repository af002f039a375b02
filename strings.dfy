/** String helpers with the semantics of the PHP and JavaScript built-ins the source uses. */
module Strings {
  import opened Wrappers

  // ---------------------------------------------------------------------------
  // Substring search (PHP `strpos($s, $sub) !== false`)
  // ---------------------------------------------------------------------------

  /** `sub[j..]` occurs in `s` at offset `i + j`. */
  predicate MatchAt(s: string, sub: string, i: nat, j: nat)
    requires i + |sub| <= |s| && j <= |sub|
    decreases |sub| - j
  {
    j == |sub| || (s[i + j] == sub[j] && MatchAt(s, sub, i, j + 1))
  }

  /** `sub` occurs in `s` at some offset `>= i`. */
  predicate ContainsFrom(s: string, sub: string, i: nat)
    decreases |s| - i
  {
    i + |sub| <= |s| && (MatchAt(s, sub, i, 0) || ContainsFrom(s, sub, i + 1))
  }

  /** `strpos($s, $sub) !== false`. */
  predicate Contains(s: string, sub: string) {
    ContainsFrom(s, sub, 0)
  }

  /** `sub` occurs in `s` as the slice starting at `k`. */
  predicate OccursAt(s: string, sub: string, k: nat) {
    k + |sub| <= |s| && s[k..k + |sub|] == sub
  }

  lemma {:induction false} MatchAtSpec(s: string, sub: string, i: nat, j: nat)
    requires i + |sub| <= |s| && j <= |sub|
    ensures MatchAt(s, sub, i, j) <==> s[i + j..i + |sub|] == sub[j..]
    decreases |sub| - j
  {
    if j < |sub| {
      MatchAtSpec(s, sub, i, j + 1);
      assert s[i + j..i + |sub|] == [s[i + j]] + s[i + j + 1..i + |sub|];
      assert sub[j..] == [sub[j]] + sub[j + 1..];
    }
  }

  lemma {:induction false} ContainsFromSpec(s: string, sub: string, i: nat)
    ensures ContainsFrom(s, sub, i) <==>
            exists k: nat :: i <= k && OccursAt(s, sub, k)
    decreases |s| - i
  {
    if i + |sub| <= |s| {
      MatchAtSpec(s, sub, i, 0);
      ContainsFromSpec(s, sub, i + 1);
      if exists k: nat :: i <= k && OccursAt(s, sub, k) {
        var k: nat :| i <= k && OccursAt(s, sub, k);
        if k > i {
          assert i + 1 <= k;
        }
      }
      if MatchAt(s, sub, i, 0) {
        assert OccursAt(s, sub, i);
      }
    }
  }

  /** `Contains` is exactly "occurs as a contiguous slice". */
  lemma ContainsSpec(s: string, sub: string)
    ensures Contains(s, sub) <==> exists k: nat :: OccursAt(s, sub, k)
  {
    ContainsFromSpec(s, sub, 0);
  }

  /** Position of the first `c` in `s` at or after `i`, like `strpos` with a one-character needle. */
  function IndexOfFrom(s: string, c: char, i: nat): (r: Option<nat>)
    requires i <= |s|
    ensures r.Some? ==> i <= r.value < |s| && s[r.value] == c && forall k :: i <= k < r.value ==> s[k] != c
    ensures r.None? ==> forall k :: i <= k < |s| ==> s[k] != c
    decreases |s| - i
  {
    if i == |s| then None
    else if s[i] == c then Some(i)
    else IndexOfFrom(s, c, i + 1)
  }

  /** `strpos($s, $c)` for a one-character needle. */
  function IndexOf(s: string, c: char): (r: Option<nat>)
    ensures r.Some? ==> r.value < |s| && s[r.value] == c && c !in s[..r.value]
    ensures r.None? <==> c !in s
  {
    IndexOfFrom(s, c, 0)
  }

  // ---------------------------------------------------------------------------
  // PHP `trim`
  // ---------------------------------------------------------------------------

  /** The characters PHP's `trim` strips by default: space, tab, LF, CR, NUL and vertical tab. */
  predicate IsTrimSpace(c: char) {
    c == ' ' || c == '\t' || c == '\n' || c == '\r' || c == '\0' || c == '\U{0B}'
  }

  /** The first index `>= i` whose character is kept by `trim`, or `|s|`. */
  function SkipLeading(s: string, i: nat): (k: nat)
    requires i <= |s|
    ensures i <= k <= |s|
    ensures forall m :: i <= m < k ==> IsTrimSpace(s[m])
    ensures k < |s| ==> !IsTrimSpace(s[k])
    decreases |s| - i
  {
    if i == |s| || !IsTrimSpace(s[i]) then i else SkipLeading(s, i + 1)
  }

  /** The end (exclusive) of the kept part of `s[lo..j]` once trailing trim characters are dropped. */
  function SkipTrailing(s: string, lo: nat, j: nat): (k: nat)
    requires lo <= j <= |s|
    ensures lo <= k <= j
    ensures forall m :: k <= m < j ==> IsTrimSpace(s[m])
    ensures k > lo ==> !IsTrimSpace(s[k - 1])
    decreases j - lo
  {
    if j == lo || !IsTrimSpace(s[j - 1]) then j else SkipTrailing(s, lo, j - 1)
  }

  /** PHP `trim($s)`: the longest slice of `s` with no trim character at either end. */
  function Trim(s: string): (r: string)
    ensures exists a, b :: 0 <= a <= b <= |s| && r == s[a..b] &&
                           (forall m :: 0 <= m < a ==> IsTrimSpace(s[m])) &&
                           (forall m :: b <= m < |s| ==> IsTrimSpace(s[m]))
    ensures r != [] ==> !IsTrimSpace(r[0]) && !IsTrimSpace(r[|r| - 1])
  {
    var a := SkipLeading(s, 0);
    var b := SkipTrailing(s, a, |s|);
    s[a..b]
  }

  /** Trimming twice is trimming once. */
  lemma TrimIdempotent(s: string)
    ensures Trim(Trim(s)) == Trim(s)
  {
    var t := Trim(s);
    if t != [] {
      assert SkipLeading(t, 0) == 0;
      assert SkipTrailing(t, 0, |t|) == |t|;
    }
  }

  // ---------------------------------------------------------------------------
  // Decimal digits
  // ---------------------------------------------------------------------------

  predicate IsDigit(c: char) {
    '0' <= c <= '9'
  }

  predicate AllDigits(s: string) {
    forall i :: 0 <= i < |s| ==> IsDigit(s[i])
  }

  function DigitChar(d: nat): (c: char)
    requires d < 10
    ensures IsDigit(c)
  {
    ['0', '1', '2', '3', '4', '5', '6', '7', '8', '9'][d]
  }

  function DigitValue(c: char): (d: nat)
    requires IsDigit(c)
    ensures d < 10
  {
    (c as int - '0' as int) as nat
  }

  /** The number a string of decimal digits denotes (PHP's numeric-string comparison). */
  function DigitsValue(s: string): nat
    requires AllDigits(s)
  {
    if s == [] then 0 else DigitsValue(s[..|s| - 1]) * 10 + DigitValue(s[|s| - 1])
  }

  /** Decimal rendering of a natural number, as PHP interpolates an integer into a string. */
  function NatToString(n: nat): (s: string)
    ensures |s| >= 1 && AllDigits(s)
  {
    if n < 10 then [DigitChar(n)] else NatToString(n / 10) + [DigitChar(n % 10)]
  }

  /** Reading back a rendered number gives the number, so the rendering is injective. */
  lemma {:induction false} NatToStringRoundTrip(n: nat)
    ensures DigitsValue(NatToString(n)) == n
  {
    var s := NatToString(n);
    if n < 10 {
      assert DigitValue(DigitChar(n)) == n;
    } else {
      NatToStringRoundTrip(n / 10);
      assert s[..|s| - 1] == NatToString(n / 10);
      assert DigitValue(DigitChar(n % 10)) == n % 10;
    }
  }

  lemma NatToStringInjective(a: nat, b: nat)
    requires NatToString(a) == NatToString(b)
    ensures a == b
  {
    NatToStringRoundTrip(a);
    NatToStringRoundTrip(b);
  }

  // ---------------------------------------------------------------------------
  // Lexicographic order (a stand-in for the SQL collation of `ORDER BY name`)
  // ---------------------------------------------------------------------------

  /** `a` sorts no later than `b`, comparing characters by code point. */
  predicate StrLe(a: string, b: string)
    decreases |a|
  {
    a == [] || (b != [] && (a[0] < b[0] || (a[0] == b[0] && StrLe(a[1..], b[1..]))))
  }

  /** Any two strings are comparable. */
  lemma {:induction false} StrLeTotal(a: string, b: string)
    ensures StrLe(a, b) || StrLe(b, a)
    decreases |a|
  {
    if a != [] && b != [] && a[0] == b[0] {
      StrLeTotal(a[1..], b[1..]);
    }
  }
}
