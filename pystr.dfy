/**
 * The Python string and integer built-ins the wizard relies on, restricted to ASCII:
 * `str.strip()`, `str.lower()`, `str.isdigit()`, `int(str)`, `str(int)`, `sub in s`,
 * `s.startswith(p)` and `s.split("_")[-1]`.
 */
module PyStr {
  import opened Wrappers

  /** `c.isspace()` for ASCII: space, tab, line feed, vertical tab, form feed, carriage return, 0x1C-0x1F. */
  predicate IsSpace(c: char) {
    c == ' ' || (9 <= c as int <= 13) || (28 <= c as int <= 31)
  }

  predicate IsDigit(c: char) {
    '0' <= c <= '9'
  }

  function DigitValue(c: char): (d: nat)
    requires IsDigit(c)
    ensures d < 10
  {
    c as int - '0' as int
  }

  function DigitChar(d: nat): (c: char)
    requires d < 10
    ensures IsDigit(c) && DigitValue(c) == d
  {
    ('0' as int + d) as char
  }

  /** `s.startswith(p)` */
  predicate StartsWith(s: string, p: string) {
    |p| <= |s| && s[..|p|] == p
  }

  // ---------------------------------------------------------------------------
  // str.strip()

  function StripLeft(s: string): (r: string)
    ensures |r| <= |s| && r == s[|s| - |r|..]
    ensures r == [] || !IsSpace(r[0])
    ensures forall i :: 0 <= i < |s| - |r| ==> IsSpace(s[i])
  {
    if |s| > 0 && IsSpace(s[0]) then StripLeft(s[1..]) else s
  }

  function StripRight(s: string): (r: string)
    ensures |r| <= |s| && r == s[..|r|]
    ensures r == [] || !IsSpace(r[|r| - 1])
    ensures forall i :: |r| <= i < |s| ==> IsSpace(s[i])
  {
    if |s| > 0 && IsSpace(s[|s| - 1]) then StripRight(s[..|s| - 1]) else s
  }

  /** `s.strip()` */
  function Strip(s: string): string {
    StripRight(StripLeft(s))
  }

  /**
   * `strip()` is characterised by where it cuts: if everything before `lo` and from `hi` on is
   * whitespace and `s[lo..hi]` neither starts nor ends with whitespace, then that slice is the result.
   */
  lemma {:induction false} StripCut(s: string, lo: nat, hi: nat)
    requires lo <= hi <= |s|
    requires forall i :: 0 <= i < lo ==> IsSpace(s[i])
    requires forall i :: hi <= i < |s| ==> IsSpace(s[i])
    requires lo < hi ==> !IsSpace(s[lo]) && !IsSpace(s[hi - 1])
    ensures Strip(s) == s[lo..hi]
  {
    var l := StripLeft(s);
    if lo < hi {
      // StripLeft stops at the first non-space character, which is `lo`.
      assert |s| - |l| == lo;
      assert l == s[lo..];
      var r := StripRight(l);
      assert |r| == hi - lo;
    }
  }

  /** A string that neither starts nor ends with whitespace is its own `strip()`. */
  lemma StripTight(s: string)
    requires s == [] || (!IsSpace(s[0]) && !IsSpace(s[|s| - 1]))
    ensures Strip(s) == s
  {
    StripCut(s, 0, |s|);
    assert s[0..|s|] == s;
  }

  // ---------------------------------------------------------------------------
  // str.lower()

  function LowerChar(c: char): char {
    if 'A' <= c <= 'Z' then (c as int + 32) as char else c
  }

  /** `s.lower()` on ASCII letters; every other character is kept. */
  function Lower(s: string): (r: string)
    ensures |r| == |s|
    ensures forall i :: 0 <= i < |s| ==> r[i] == LowerChar(s[i])
  {
    if s == [] then [] else [LowerChar(s[0])] + Lower(s[1..])
  }

  // ---------------------------------------------------------------------------
  // str.isdigit(), int(str), str(int)

  /** `s.isdigit()`: non-empty and every character a decimal digit. */
  predicate IsDigits(s: string) {
    |s| > 0 && forall i :: 0 <= i < |s| ==> IsDigit(s[i])
  }

  /** The value of a run of decimal digits (leading zeros allowed). */
  function DigitsValue(s: string): (n: nat)
    requires forall i :: 0 <= i < |s| ==> IsDigit(s[i])
  {
    if s == [] then 0 else DigitsValue(s[..|s| - 1]) * 10 + DigitValue(s[|s| - 1])
  }

  /** `int(s)` for an ASCII decimal literal: surrounding whitespace, an optional sign, one or more digits. */
  function ParseInt(s: string): (r: Option<int>)
    ensures r.Some? ==> IsDigits(Strip(s)) || (|Strip(s)| > 0 && Strip(s)[0] in "+-")
  {
    var t := Strip(s);
    if IsDigits(t) then Some(DigitsValue(t))
    else if |t| > 0 && t[0] == '-' && IsDigits(t[1..]) then Some(0 - DigitsValue(t[1..]))
    else if |t| > 0 && t[0] == '+' && IsDigits(t[1..]) then Some(DigitsValue(t[1..]))
    else None
  }

  /** `str(n)` for a natural number. */
  function ShowNat(n: nat): (s: string)
    ensures IsDigits(s)
  {
    if n < 10 then [DigitChar(n)] else ShowNat(n / 10) + [DigitChar(n % 10)]
  }

  /** `str(n)` */
  function Show(n: int): string {
    if n < 0 then "-" + ShowNat(-n) else ShowNat(n)
  }

  lemma {:induction false} ShowNatValue(n: nat)
    ensures DigitsValue(ShowNat(n)) == n
  {
    if n >= 10 {
      var s := ShowNat(n);
      assert s[..|s| - 1] == ShowNat(n / 10);
      ShowNatValue(n / 10);
    }
  }

  /** `int(str(n)) == n` */
  lemma ParseShow(n: int)
    ensures ParseInt(Show(n)) == Some(n)
  {
    var m := if n < 0 then -n else n;
    var d := ShowNat(m);
    ShowNatValue(m);
    if n < 0 {
      var s := "-" + d;
      StripTight(s);
      assert s[1..] == d;
      assert !IsDigits(s) by { assert !IsDigit(s[0]); }
    } else {
      StripTight(d);
    }
  }

  // ---------------------------------------------------------------------------
  // sub in s

  /** `sub` occurs in `s` starting at position `i`. */
  predicate OccursAt(s: string, sub: string, i: int) {
    0 <= i <= |s| - |sub| && s[i..i + |sub|] == sub
  }

  /** Python's `sub in s`, one starting position at a time. */
  predicate Contains(s: string, sub: string)
    decreases |s|
  {
    StartsWith(s, sub) || (|s| > 0 && Contains(s[1..], sub))
  }

  /** `sub in s` holds exactly when `sub` occurs at some position of `s`. */
  lemma {:induction false} ContainsAt(s: string, sub: string)
    ensures Contains(s, sub) <==> exists i :: OccursAt(s, sub, i)
    decreases |s|
  {
    if StartsWith(s, sub) {
      assert OccursAt(s, sub, 0);
    } else if |s| > 0 {
      ContainsAt(s[1..], sub);
      if Contains(s[1..], sub) {
        var i :| OccursAt(s[1..], sub, i);
        assert OccursAt(s, sub, i + 1);
      }
      if exists i :: OccursAt(s, sub, i) {
        var i :| OccursAt(s, sub, i);
        assert i != 0;
        assert OccursAt(s[1..], sub, i - 1);
      }
    }
  }

  // ---------------------------------------------------------------------------
  // s.split("_")[-1]

  /** `s.split(sep)[-1]`: the part of `s` after its last `sep`, or all of `s` when there is none. */
  function LastSegment(s: string, sep: char): (r: string)
    ensures sep !in r
    ensures |r| <= |s| && r == s[|s| - |r|..]
    ensures |r| < |s| ==> s[|s| - |r| - 1] == sep
  {
    if s == [] then ""
    else if s[|s| - 1] == sep then ""
    else LastSegment(s[..|s| - 1], sep) + [s[|s| - 1]]
  }

  /** What follows the last separator is the last segment, whatever precedes it. */
  lemma {:induction false} LastSegmentAfter(p: string, sep: char, t: string)
    requires sep !in t
    ensures LastSegment(p + [sep] + t, sep) == t
  {
    if t != [] {
      var s := p + [sep] + t;
      var u := t[..|t| - 1];
      assert s[..|s| - 1] == p + [sep] + u;
      LastSegmentAfter(p, sep, u);
      assert t == u + [t[|t| - 1]];
    }
  }
}
