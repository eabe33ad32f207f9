/**
 * The handful of PHP string functions the engine relies on, on `seq<char>`:
 * `explode($sep, $s, 2)`, `str_ends_with`, `str_replace($pat, '', $s)`,
 * `trim($s) === ''` and the decimal `(string)` / `(int)` conversions.
 */
module Strings {

  /** `explode($sep, $s, 2)` on a string that contains `$sep`: the part before the first
      separator and everything after it. */
  function SplitFirst(s: string, sep: char): (r: (string, string))
    requires sep in s
    ensures r.0 + [sep] + r.1 == s
    ensures sep !in r.0
  {
    if s[0] == sep then ("", s[1..])
    else
      assert sep in s[1..] by { assert s == [s[0]] + s[1..]; }
      var rest := SplitFirst(s[1..], sep);
      ([s[0]] + rest.0, rest.1)
  }

  /** Number of occurrences of `c` in `s`. */
  function CountChar(s: string, c: char): (n: nat)
    ensures n == 0 <==> c !in s
  {
    if s == [] then 0
    else (if s[0] == c then 1 else 0) + CountChar(s[1..], c)
  }

  lemma {:induction false} CountCharConcat(a: string, b: string, c: char)
    ensures CountChar(a + b, c) == CountChar(a, c) + CountChar(b, c)
  {
    if a == [] {
      assert a + b == b;
    } else {
      CountCharConcat(a[1..], b, c);
      assert (a + b)[0] == a[0];
      assert (a + b)[1..] == a[1..] + b;
    }
  }

  /** `explode($sep, $s)`: the pieces between separators, one more than there are
      separators, none of them containing the separator. */
  function Explode(s: string, sep: char): (r: seq<string>)
    ensures |r| == CountChar(s, sep) + 1
    ensures forall k :: 0 <= k < |r| ==> sep !in r[k]
    decreases |s|
  {
    if sep in s then
      var parts := SplitFirst(s, sep);
      CountCharConcat(parts.0 + [sep], parts.1, sep);
      CountCharConcat(parts.0, [sep], sep);
      [parts.0] + Explode(parts.1, sep)
    else [s]
  }

  /** `implode($sep, $parts)`. */
  function Implode(parts: seq<string>, sep: char): string
    requires |parts| >= 1
    decreases |parts|
  {
    if |parts| == 1 then parts[0] else parts[0] + [sep] + Implode(parts[1..], sep)
  }

  /** The first separator of `head + [sep] + tail` is the one after `head` when `head` has
      none. */
  lemma {:induction false} SplitFirstUnique(head: string, sep: char, tail: string)
    requires sep !in head
    ensures SplitFirst(head + [sep] + tail, sep) == (head, tail)
  {
    var s := head + [sep] + tail;
    if head != [] {
      assert s[0] == head[0] && head[0] != sep;
      assert s[1..] == head[1..] + [sep] + tail;
      SplitFirstUnique(head[1..], sep, tail);
      assert [head[0]] + head[1..] == head;
    } else {
      assert s[1..] == tail;
    }
  }

  /** Joining the pieces back with the separator restores the string. */
  lemma {:induction false} ImplodeExplode(s: string, sep: char)
    ensures Implode(Explode(s, sep), sep) == s
    decreases |s|
  {
    if sep in s {
      var parts := SplitFirst(s, sep);
      ImplodeExplode(parts.1, sep);
      assert Explode(s, sep)[1..] == Explode(parts.1, sep);
    }
  }

  /** Splitting a join of separator-free pieces gives the pieces back. */
  lemma {:induction false} ExplodeImplode(parts: seq<string>, sep: char)
    requires |parts| >= 1
    requires forall k :: 0 <= k < |parts| ==> sep !in parts[k]
    ensures Explode(Implode(parts, sep), sep) == parts
    decreases |parts|
  {
    if |parts| > 1 {
      var rest := Implode(parts[1..], sep);
      SplitFirstUnique(parts[0], sep, rest);
      assert sep in parts[0] + [sep] + rest by {
        assert (parts[0] + [sep] + rest)[|parts[0]|] == sep;
      }
      ExplodeImplode(parts[1..], sep);
      assert [parts[0]] + parts[1..] == parts;
    }
  }

  /** `str_ends_with($s, $suffix)`. */
  predicate EndsWith(s: string, suffix: string) {
    |suffix| <= |s| && s[|s| - |suffix|..] == suffix
  }

  /** `pat` occurs in `s` starting at index `i`. */
  predicate OccursAt(s: string, pat: string, i: int) {
    0 <= i && i + |pat| <= |s| && s[i..i + |pat|] == pat
  }

  /** `pat` occurs somewhere in `s`. */
  predicate Occurs(s: string, pat: string) {
    exists i | 0 <= i <= |s| :: OccursAt(s, pat, i)
  }

  /** `str_replace($pat, '', $s)`: every occurrence of `pat`, found left to right without
      overlap, is removed. */
  function RemoveAll(s: string, pat: string): (r: string)
    requires pat != []
    ensures |r| <= |s|
    decreases |s|
  {
    if |s| < |pat| then s
    else if s[..|pat|] == pat then RemoveAll(s[|pat|..], pat)
    else [s[0]] + RemoveAll(s[1..], pat)
  }

  /** A string without an occurrence of the pattern is left as it is. */
  lemma {:induction false} RemoveAllAbsent(s: string, pat: string)
    requires pat != [] && !Occurs(s, pat)
    ensures RemoveAll(s, pat) == s
    decreases |s|
  {
    if |s| >= |pat| {
      assert !OccursAt(s, pat, 0);
      OccursInTail(s, pat);
      RemoveAllAbsent(s[1..], pat);
    }
  }

  /** An occurrence in the tail of `s` is an occurrence in `s`. */
  lemma OccursInTail(s: string, pat: string)
    requires s != []
    ensures Occurs(s[1..], pat) ==> Occurs(s, pat)
  {
    if Occurs(s[1..], pat) {
      var i :| 0 <= i <= |s[1..]| && OccursAt(s[1..], pat, i);
      assert s[i + 1..i + 1 + |pat|] == s[1..][i..i + |pat|];
      assert OccursAt(s, pat, i + 1);
    }
  }

  /** A pattern whose first character appears nowhere else in it is removed independently on
      either side of one occurrence: no occurrence can overlap the one in the middle. */
  lemma {:induction false} RemoveAllSplit(a: string, pat: string, b: string)
    requires pat != [] && forall i :: 0 < i < |pat| ==> pat[i] != pat[0]
    ensures RemoveAll(a + pat + b, pat) == RemoveAll(a, pat) + RemoveAll(b, pat)
    decreases |a|
  {
    if a == [] {
      RemoveAllAtPattern(pat, b);
    } else if |a| >= |pat| && a[..|pat|] == pat {
      RemoveAllSplit(a[|pat|..], pat, b);
      RemoveAllPatternStep(a, pat, b);
    } else {
      RemoveAllSplit(a[1..], pat, b);
      RemoveAllCharStep(a, pat, b);
    }
  }

  /** A string starting with the pattern loses it first. */
  lemma RemoveAllAtPattern(pat: string, b: string)
    requires pat != []
    ensures RemoveAll(pat + b, pat) == RemoveAll(b, pat)
  {
    var s := pat + b;
    assert s[..|pat|] == pat && s[|pat|..] == b;
  }

  /** An occurrence at the front of `a` is removed from `a + pat + b` as from `a`, so the
      split carries over from the rest of `a`. */
  lemma RemoveAllPatternStep(a: string, pat: string, b: string)
    requires pat != [] && |a| >= |pat| && a[..|pat|] == pat
    requires RemoveAll(a[|pat|..] + pat + b, pat) == RemoveAll(a[|pat|..], pat) + RemoveAll(b, pat)
    ensures RemoveAll(a + pat + b, pat) == RemoveAll(a, pat) + RemoveAll(b, pat)
  {
    RemoveAllFrontRemoved(a, pat, b);
  }

  lemma RemoveAllFrontRemoved(a: string, pat: string, b: string)
    requires pat != [] && |a| >= |pat| && a[..|pat|] == pat
    ensures RemoveAll(a + pat + b, pat) == RemoveAll(a[|pat|..] + pat + b, pat)
    ensures RemoveAll(a, pat) == RemoveAll(a[|pat|..], pat)
  {
    var s := a + pat + b;
    assert a[..|pat|] == s[..|pat|];
    assert s[|pat|..] == a[|pat|..] + pat + b;
  }

  /** When `a` does not start with the pattern, its first character is kept on both sides,
      so the split carries over from the rest of `a`. */
  lemma RemoveAllCharStep(a: string, pat: string, b: string)
    requires pat != [] && forall i :: 0 < i < |pat| ==> pat[i] != pat[0]
    requires a != [] && !(|a| >= |pat| && a[..|pat|] == pat)
    requires RemoveAll(a[1..] + pat + b, pat) == RemoveAll(a[1..], pat) + RemoveAll(b, pat)
    ensures RemoveAll(a + pat + b, pat) == RemoveAll(a, pat) + RemoveAll(b, pat)
  {
    RemoveAllFirstKept(a, pat, b);
    ConsAppend(a[0], RemoveAll(a[1..], pat), RemoveAll(b, pat));
  }

  lemma RemoveAllFirstKept(a: string, pat: string, b: string)
    requires pat != [] && forall i :: 0 < i < |pat| ==> pat[i] != pat[0]
    requires a != [] && !(|a| >= |pat| && a[..|pat|] == pat)
    ensures RemoveAll(a + pat + b, pat) == [a[0]] + RemoveAll(a[1..] + pat + b, pat)
    ensures RemoveAll(a, pat) == [a[0]] + RemoveAll(a[1..], pat)
  {
    var s := a + pat + b;
    if |a| >= |pat| {
      assert a[..|pat|] == s[..|pat|];
    } else {
      // the occurrence in the middle starts at |a|, inside the window at 0
      assert s[|a|] == pat[0] != pat[|a|];
      assert s[..|pat|][|a|] != pat[|a|];
      assert RemoveAll(a[1..], pat) == a[1..];
      assert [a[0]] + a[1..] == a;
    }
    assert s[1..] == a[1..] + pat + b;
  }

  lemma ConsAppend<T>(x: T, u: seq<T>, v: seq<T>)
    ensures [x] + (u + v) == ([x] + u) + v
  {
  }

  /** `str_replace('_count', '', ...)` removes each `_count` on its own: a name holding
      `_count` is cut there, whatever else it holds on either side. */
  lemma RemoveCountSplit(a: string, b: string)
    ensures RemoveAll(a + "_count" + b, "_count") == RemoveAll(a, "_count") + RemoveAll(b, "_count")
  {
    RemoveAllSplit(a, "_count", b);
  }

  /** The characters PHP's `trim` strips by default. */
  const TrimChars: set<char> := {' ', '\t', '\n', '\r', '\0', '\U{000B}'}

  /** `trim($s) === ''`: nothing but trimmable characters. */
  predicate Blank(s: string) {
    forall i :: 0 <= i < |s| ==> s[i] in TrimChars
  }

  function DigitChar(d: nat): (c: char)
    requires d < 10
    ensures '0' <= c <= '9' && c as int == '0' as int + d
  {
    ('0' as int + d) as char
  }

  /** Decimal digits of `n`, most significant first, with no leading zero. */
  function NatToString(n: nat): (r: string)
    ensures |r| >= 1
    ensures forall i :: 0 <= i < |r| ==> '0' <= r[i] <= '9'
    decreases n
  {
    if n < 10 then [DigitChar(n)] else NatToString(n / 10) + [DigitChar(n % 10)]
  }

  /** PHP's `(string)` of an integer. */
  function IntToString(i: int): string {
    if i < 0 then "-" + NatToString(-i) else NatToString(i)
  }

  predicate IsDigit(c: char) { '0' <= c <= '9' }

  /** The longest prefix of `s` made of decimal digits. */
  function LeadingDigits(s: string): (r: string)
    ensures |r| <= |s| && r == s[..|r|]
    ensures forall i :: 0 <= i < |r| ==> IsDigit(r[i])
  {
    if s != [] && IsDigit(s[0]) then [s[0]] + LeadingDigits(s[1..]) else ""
  }

  function DigitValue(c: char): nat
    requires IsDigit(c)
  {
    c as int - '0' as int
  }

  /** The value of a string of decimal digits. */
  function DigitsValue(s: string): nat
    requires forall i :: 0 <= i < |s| ==> IsDigit(s[i])
  {
    if s == [] then 0
    else DigitsValue(s[..|s| - 1]) * 10 + DigitValue(s[|s| - 1])
  }

  /** The characters PHP skips before a numeric prefix. */
  const NumericSpace: set<char> := {' ', '\t', '\n', '\r', '\U{000B}', '\U{000C}'}

  function DropSpace(s: string): (r: string)
    ensures |r| <= |s|
  {
    if s != [] && s[0] in NumericSpace then DropSpace(s[1..]) else s
  }

  /** PHP's `(int)` of a string, on its integer prefix: leading white space, an optional
      sign and decimal digits; a string with no such prefix gives 0. */
  function StringToInt(s: string): int {
    var t := DropSpace(s);
    if t != [] && t[0] == '-' then 0 - DigitsValue(LeadingDigits(t[1..])) as int
    else if t != [] && t[0] == '+' then DigitsValue(LeadingDigits(t[1..]))
    else DigitsValue(LeadingDigits(t))
  }

  lemma {:induction false} LeadingDigitsOfDigits(s: string)
    requires forall i :: 0 <= i < |s| ==> IsDigit(s[i])
    ensures LeadingDigits(s) == s
  {
    if s != [] {
      LeadingDigitsOfDigits(s[1..]);
    }
  }

  /** The decimal text of a number has no leading zero, except the text of zero itself. */
  lemma {:induction false} NatToStringCanonical(n: nat)
    ensures NatToString(n)[0] != '0' || NatToString(n) == "0"
    decreases n
  {
    if n >= 10 {
      NatToStringCanonical(n / 10);
      assert NatToString(n)[0] == NatToString(n / 10)[0];
    }
  }

  /** Digits without a leading zero (or the single digit zero) are the decimal text of the
      value they read. */
  lemma {:induction false} CanonicalDigits(s: string)
    requires s != [] && forall i | 0 <= i < |s| :: IsDigit(s[i])
    requires s[0] != '0' || |s| == 1
    ensures IntToString(DigitsValue(s)) == s
    decreases |s|
  {
    if |s| > 1 {
      var init := s[..|s| - 1];
      CanonicalDigits(init);
      assert DigitsValue(init) > 0;
    }
  }

  lemma {:induction false} DigitsValueOfNat(n: nat)
    ensures DigitsValue(NatToString(n)) == n
    decreases n
  {
    var r := NatToString(n);
    if n >= 10 {
      DigitsValueOfNat(n / 10);
      assert r[..|r| - 1] == NatToString(n / 10);
    }
  }

  /** Writing an integer in decimal and casting it back gives the same integer. */
  lemma IntStringRoundTrip(i: int)
    ensures StringToInt(IntToString(i)) == i
  {
    if i < 0 {
      var d := NatToString(-i);
      assert DropSpace("-" + d) == "-" + d;
      assert ("-" + d)[1..] == d;
      LeadingDigitsOfDigits(d);
      DigitsValueOfNat(-i);
    } else {
      var d := NatToString(i);
      assert DropSpace(d) == d;
      LeadingDigitsOfDigits(d);
      DigitsValueOfNat(i);
    }
  }

  /** Removing `_count` from a name that ends in it and has no other occurrence gives back
      the name without its suffix. */
  lemma RemoveCountSuffix(p: string)
    requires !Occurs(p, "_count")
    ensures RemoveAll(p + "_count", "_count") == p
  {
    RemoveCountSplit(p, []);
    RemoveAllAbsent(p, "_count");
    assert p + "_count" + [] == p + "_count";
  }
}
