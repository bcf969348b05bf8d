/**
 * The pieces of Python's `str` the core relies on: `split` on one separator character,
 * `join`, `strip`, `str(n)` for a natural number, `int(s)` for a decimal string and an
 * ASCII `lower`.
 */
module Strings {
  import opened Wrappers

  /** Python's `str.isspace()` for one character (the characters `strip()` and the regex `\s` take as white space). */
  predicate IsSpace(c: char) {
    var n := c as int;
    n == 32 || 9 <= n <= 13 || 28 <= n <= 31 || n == 0x85 || n == 0xA0 || n == 0x1680
    || 0x2000 <= n <= 0x200A || n == 0x2028 || n == 0x2029 || n == 0x202F || n == 0x205F || n == 0x3000
  }

  predicate IsDigit(c: char) {
    '0' <= c <= '9'
  }

  predicate AllDigits(s: string) {
    forall i :: 0 <= i < |s| ==> IsDigit(s[i])
  }

  predicate NoDigits(s: string) {
    forall i :: 0 <= i < |s| ==> !IsDigit(s[i])
  }

  /** Index of the first occurrence of `c` in `s`. */
  function IndexOf(s: string, c: char): (i: nat)
    requires c in s
    ensures i < |s| && s[i] == c && c !in s[..i]
    ensures forall k :: 0 <= k < i ==> s[k] != c
  {
    if s[0] == c then 0 else 1 + IndexOf(s[1..], c)
  }

  /** End of the run of characters other than `sep` that starts at `i`: the next separator or `|s|`. */
  function SepEnd(s: string, sep: char, i: nat): (r: nat)
    requires i <= |s|
    ensures i <= r <= |s|
    ensures forall k :: i <= k < r ==> s[k] != sep
    ensures r == |s| || s[r] == sep
    decreases |s| - i
  {
    if i < |s| && s[i] != sep then SepEnd(s, sep, i + 1) else i
  }

  /** `s.split(sep)`: the maximal runs between separators, empty runs included; never an empty list. */
  function Split(s: string, sep: char): (parts: seq<string>)
    ensures |parts| >= 1
    ensures forall i :: 0 <= i < |parts| ==> sep !in parts[i]
    decreases |s|
  {
    var i := SepEnd(s, sep, 0);
    if i == |s| then
      assert s == s[..i];
      [s]
    else
      assert sep !in s[..i];
      [s[..i]] + Split(s[i + 1..], sep)
  }

  /** `sep.join(parts)`. */
  function Join(parts: seq<string>, sep: char): string
  {
    if |parts| == 0 then ""
    else if |parts| == 1 then parts[0]
    else parts[0] + [sep] + Join(parts[1..], sep)
  }

  /** Joining what `split` produced gives the string back. */
  lemma {:induction false} JoinSplit(s: string, sep: char)
    ensures Join(Split(s, sep), sep) == s
    decreases |s|
  {
    var i := SepEnd(s, sep, 0);
    if i < |s| {
      var rest := Split(s[i + 1..], sep);
      JoinSplit(s[i + 1..], sep);
      assert Split(s, sep) == [s[..i]] + rest;
      assert s == s[..i] + [sep] + s[i + 1..];
    }
  }

  /** Unfolding `split` at a known first separator. */
  lemma SplitAt(s: string, sep: char, i: nat)
    requires i < |s| && s[i] == sep
    requires forall k :: 0 <= k < i ==> s[k] != sep
    ensures Split(s, sep) == [s[..i]] + Split(s[i + 1..], sep)
  {
    assert SepEnd(s, sep, 0) == i;
  }

  /** A string without the separator is a single part. */
  lemma SplitNone(s: string, sep: char)
    requires sep !in s
    ensures Split(s, sep) == [s]
  {
    assert SepEnd(s, sep, 0) == |s|;
  }

  /** A join starts with its first part. */
  lemma {:induction false} JoinFirst(parts: seq<string>, sep: char)
    requires |parts| >= 1
    ensures parts[0] <= Join(parts, sep)
  {
  }

  /** A join ends with its last part. */
  lemma {:induction false} JoinLast(parts: seq<string>, sep: char)
    requires |parts| >= 1
    ensures var s, l := Join(parts, sep), parts[|parts| - 1]; |l| <= |s| && s[|s| - |l|..] == l
  {
    if |parts| > 1 {
      JoinLast(parts[1..], sep);
      assert parts[1..][|parts[1..]| - 1] == parts[|parts| - 1];
    }
  }

  /** Joining two non-empty lists of parts puts one separator between the two joins. */
  lemma {:induction false} JoinAppend(a: seq<string>, b: seq<string>, sep: char)
    requires |a| >= 1 && |b| >= 1
    ensures Join(a + b, sep) == Join(a, sep) + [sep] + Join(b, sep)
  {
    if |a| == 1 {
      assert (a + b)[1..] == b;
    } else {
      assert (a + b)[1..] == a[1..] + b;
      JoinAppend(a[1..], b, sep);
    }
  }

  /** The join of parts without the separator contains the separator iff there are at least two parts. */
  lemma {:induction false} JoinHasSeparator(parts: seq<string>, sep: char)
    requires forall i :: 0 <= i < |parts| ==> sep !in parts[i]
    ensures (sep in Join(parts, sep)) <==> |parts| >= 2
  {
    if |parts| >= 2 {
      var s := Join(parts, sep);
      assert s[|parts[0]|] == sep;
    } else if |parts| == 1 {
    }
  }

  /** Python's `s.strip()`: leading and trailing white space removed. */
  function Strip(s: string): (r: string)
    ensures |r| == 0 || (!IsSpace(r[0]) && !IsSpace(r[|r| - 1]))
  {
    StripRight(StripLeft(s))
  }

  /** End of the maximal run of white space that starts at `i`. */
  function SpaceEnd(s: string, i: nat): (r: nat)
    requires i <= |s|
    ensures i <= r <= |s|
    ensures forall k :: i <= k < r ==> IsSpace(s[k])
    ensures r == |s| || !IsSpace(s[r])
    decreases |s| - i
  {
    if i < |s| && IsSpace(s[i]) then SpaceEnd(s, i + 1) else i
  }

  /** `s.lstrip()`: what follows the leading white space. */
  function StripLeft(s: string): (r: string)
    ensures |r| == 0 || !IsSpace(r[0])
    ensures |r| <= |s| && r == s[|s| - |r|..]
    ensures forall j :: 0 <= j < |s| - |r| ==> IsSpace(s[j])
  {
    s[SpaceEnd(s, 0)..]
  }

  function StripRight(s: string): (r: string)
    ensures |r| == 0 || !IsSpace(r[|r| - 1])
    ensures r <= s
  {
    if |s| > 0 && IsSpace(s[|s| - 1]) then StripRight(s[..|s| - 1]) else s
  }

  function DigitChar(d: nat): (c: char)
    requires d < 10
    ensures IsDigit(c)
  {
    "0123456789"[d]
  }

  function DigitValue(c: char): (d: nat)
    requires IsDigit(c)
    ensures d < 10 && DigitChar(d) == c
  {
    (c as int - '0' as int) as nat
  }

  /** Python's `str(n)` for a natural number: its decimal digits, no leading zero. */
  function NatToString(n: nat): (s: string)
    ensures |s| >= 1 && AllDigits(s)
    ensures |s| > 1 ==> s[0] != '0'
  {
    if n < 10 then [DigitChar(n)] else NatToString(n / 10) + [DigitChar(n % 10)]
  }

  /** The value of a string of decimal digits. */
  function DigitsValue(s: string): nat
    requires AllDigits(s)
  {
    if |s| == 0 then 0 else 10 * DigitsValue(s[..|s| - 1]) + DigitValue(s[|s| - 1])
  }

  /** Reading back the digits `str(n)` writes gives `n`. */
  lemma {:induction false} NatToStringRoundTrip(n: nat)
    ensures DigitsValue(NatToString(n)) == n
  {
    if n >= 10 {
      var s := NatToString(n);
      assert s[..|s| - 1] == NatToString(n / 10);
      NatToStringRoundTrip(n / 10);
    }
  }

  /** `str` is injective on natural numbers. */
  lemma NatToStringInjective(a: nat, b: nat)
    requires NatToString(a) == NatToString(b)
    ensures a == b
  {
    NatToStringRoundTrip(a);
    NatToStringRoundTrip(b);
  }

  /**
   * Python's `int(s)` for a string: an optional sign and one or more ASCII digits.
   * None stands for the ValueError it raises otherwise.
   */
  function ParseInt(s: string): (r: Option<int>)
    ensures r.Some? <==> (|s| >= 1 && AllDigits(s)) || (|s| >= 2 && (s[0] == '-' || s[0] == '+') && AllDigits(s[1..]))
  {
    if |s| >= 1 && AllDigits(s) then Some(DigitsValue(s))
    else if |s| >= 2 && s[0] == '-' && AllDigits(s[1..]) then Some(0 - DigitsValue(s[1..]) as int)
    else if |s| >= 2 && s[0] == '+' && AllDigits(s[1..]) then Some(DigitsValue(s[1..]))
    else None
  }

  /** `int(str(n)) == n`. */
  lemma ParseIntNatToString(n: nat)
    ensures ParseInt(NatToString(n)) == Some(n)
  {
    NatToStringRoundTrip(n);
  }

  /**
   * A digit-free key followed by `str(i)` determines both the key and `i`: the numbered
   * parameter names `HostName1`, `TTL12`, ... never collide.
   */
  lemma NumberedKeyInjective(k1: string, i1: nat, k2: string, i2: nat)
    requires NoDigits(k1) && NoDigits(k2)
    requires k1 + NatToString(i1) == k2 + NatToString(i2)
    ensures k1 == k2 && i1 == i2
  {
    var s := k1 + NatToString(i1);
    assert forall j :: 0 <= j < |s| ==> (IsDigit(s[j]) <==> j >= |k1|) by {
      forall j | 0 <= j < |s| ensures IsDigit(s[j]) <==> j >= |k1| {
        if j < |k1| { assert s[j] == k1[j]; } else { assert s[j] == NatToString(i1)[j - |k1|]; }
      }
    }
    assert forall j :: 0 <= j < |s| ==> (IsDigit(s[j]) <==> j >= |k2|) by {
      forall j | 0 <= j < |s| ensures IsDigit(s[j]) <==> j >= |k2| {
        if j < |k2| { assert s[j] == k2[j]; } else { assert s[j] == NatToString(i2)[j - |k2|]; }
      }
    }
    assert |k1| < |s| && |k2| < |s|;
    assert IsDigit(s[|k1|]) && IsDigit(s[|k2|]);
    assert |k1| == |k2|;
    assert k1 == s[..|k1|] == k2;
    assert NatToString(i1) == s[|k1|..] == NatToString(i2);
    NatToStringInjective(i1, i2);
  }

  function LowerChar(c: char): char {
    if 'A' <= c <= 'Z' then (c as int + 32) as char else c
  }

  /** `s.lower()` restricted to ASCII letters. */
  function Lower(s: string): (r: string)
    ensures |r| == |s|
    ensures forall i :: 0 <= i < |s| ==> r[i] == LowerChar(s[i])
  {
    if |s| == 0 then "" else [LowerChar(s[0])] + Lower(s[1..])
  }

  /** Lower-casing twice is lower-casing once. */
  lemma LowerIdempotent(s: string)
    ensures Lower(Lower(s)) == Lower(s)
  {
  }

  /** `t` occurs in `s` as a substring (Python's `t in s`). */
  predicate Contains(s: string, t: string) {
    exists i :: 0 <= i <= |s| - |t| && OccursAt(s, t, i)
  }

  predicate OccursAt(s: string, t: string, i: nat)
    requires i <= |s| - |t|
  {
    s[i..i + |t|] == t
  }

  /** A text occurs in any text that ends with it. */
  lemma OccursAtEnd(p: string, t: string)
    ensures OccursAt(p + t, t, |p|) && Contains(p + t, t)
  {
    assert (p + t)[|p|..|p| + |t|] == t;
    assert OccursAt(p + t, t, |p|);
  }
}
