/** The small pieces of Python string and number behaviour the monitor relies on:
    `str(int)`, the `in` substring test, `str.title()`, clamped slicing and `round()`. */
module Text {

  predicate IsDigit(c: char) {
    '0' <= c <= '9'
  }

  predicate AllDigits(s: string) {
    forall i :: 0 <= i < |s| ==> IsDigit(s[i])
  }

  function DigitChar(d: nat): (c: char)
    requires d < 10
    ensures IsDigit(c) && c as int - '0' as int == d
  {
    "0123456789"[d]
  }

  /** The value of a decimal digit (zero for any other character). */
  function DigitValue(c: char): nat {
    if IsDigit(c) then c as int - '0' as int else 0
  }

  /** Decimal rendering of a natural number, as Python's `str` (and `{:d}`) print it. */
  function NatToString(n: nat): (r: string)
    ensures |r| >= 1 && AllDigits(r)
    decreases n
  {
    if n < 10 then [DigitChar(n)] else NatToString(n / 10) + [DigitChar(n % 10)]
  }

  /** Python's `str` of an integer: a minus sign, then the digits of the magnitude. */
  function IntToString(i: int): string {
    if i < 0 then "-" + NatToString(-i) else NatToString(i)
  }

  /** The number a string of decimal digits denotes (most significant digit first). */
  function DigitsValue(s: string): nat {
    if s == [] then 0 else DigitsValue(s[..|s| - 1]) * 10 + DigitValue(s[|s| - 1])
  }

  lemma {:induction false} DigitsValueOfNatToString(n: nat)
    ensures DigitsValue(NatToString(n)) == n
    decreases n
  {
    var r := NatToString(n);
    if n < 10 {
      assert r[..|r| - 1] == [];
    } else {
      assert r[..|r| - 1] == NatToString(n / 10);
      DigitsValueOfNatToString(n / 10);
    }
  }

  /** Python's `sub in s` on strings: `sub` occurs somewhere in `s` (the empty string occurs everywhere). */
  predicate Contains(s: string, sub: string)
    decreases |s|
  {
    if |sub| > |s| then false
    else if s[..|sub|] == sub then true
    else Contains(s[1..], sub)
  }

  /** `sub` occurs in `s` starting at position `i`. */
  predicate OccursAt(s: string, sub: string, i: nat) {
    i + |sub| <= |s| && s[i..i + |sub|] == sub
  }

  lemma {:induction false} ContainsAt(s: string, sub: string, i: nat)
    requires OccursAt(s, sub, i)
    ensures Contains(s, sub)
    decreases i
  {
    if s[..|sub|] != sub {
      assert i > 0;
      assert s[1..][i - 1..i - 1 + |sub|] == s[i..i + |sub|];
      ContainsAt(s[1..], sub, i - 1);
    }
  }

  /** `Contains` holds exactly when `sub` sits at some position of `s`. */
  lemma {:induction false} ContainsIff(s: string, sub: string)
    ensures Contains(s, sub) <==> exists i: nat :: OccursAt(s, sub, i)
    decreases |s|
  {
    if exists i: nat :: OccursAt(s, sub, i) {
      var i: nat :| OccursAt(s, sub, i);
      ContainsAt(s, sub, i);
    }
    if Contains(s, sub) {
      if s[..|sub|] == sub {
        assert OccursAt(s, sub, 0);
      } else {
        ContainsIff(s[1..], sub);
        var j: nat :| OccursAt(s[1..], sub, j);
        assert s[1..][j..j + |sub|] == s[j + 1..j + 1 + |sub|];
        assert OccursAt(s, sub, j + 1);
      }
    }
  }

  /** `s` starts with `prefix`. */
  predicate StartsWith(s: string, prefix: string) {
    |prefix| <= |s| && s[..|prefix|] == prefix
  }

  /** `s` ends with `suffix`. */
  predicate EndsWith(s: string, suffix: string) {
    |suffix| <= |s| && s[|s| - |suffix|..] == suffix
  }

  lemma EndsWithAppend(s: string, suffix: string)
    ensures EndsWith(s + suffix, suffix)
  {
    assert (s + suffix)[|s|..] == suffix;
  }

  /** A suffix stays a suffix when text is put in front. */
  lemma EndsWithExtends(prefix: string, s: string, suffix: string)
    requires EndsWith(s, suffix)
    ensures EndsWith(prefix + s, suffix)
  {
    assert (prefix + s)[|prefix + s| - |suffix|..] == s[|s| - |suffix|..];
  }

  predicate IsUpper(c: char) { 'A' <= c <= 'Z' }
  predicate IsLower(c: char) { 'a' <= c <= 'z' }
  predicate IsLetter(c: char) { IsUpper(c) || IsLower(c) }

  function ToUpper(c: char): char {
    if IsLower(c) then (c as int - 32) as char else c
  }

  function ToLower(c: char): char {
    if IsUpper(c) then (c as int + 32) as char else c
  }

  /** Python's `str.title()` on ASCII text: a letter is upper-cased when it does not follow
      another letter and lower-cased when it does; every other character is kept and ends a word. */
  function Title(s: string): (r: string)
    ensures |r| == |s|
  {
    TitleFrom(s, false)
  }

  function TitleFrom(s: string, afterLetter: bool): (r: string)
    ensures |r| == |s|
    ensures forall i :: 0 <= i < |s| && !IsLetter(s[i]) ==> r[i] == s[i]
    ensures forall i :: 0 <= i < |s| && IsLetter(s[i]) ==> IsLetter(r[i])
    decreases |s|
  {
    if s == [] then []
    else if IsLetter(s[0]) then
      [if afterLetter then ToLower(s[0]) else ToUpper(s[0])] + TitleFrom(s[1..], true)
    else [s[0]] + TitleFrom(s[1..], false)
  }

  /** Python's `s[lo:hi]` for `0 <= lo <= hi`: both bounds are clamped to the length of `s`. */
  function Slice(s: string, lo: nat, hi: nat): (r: string)
    requires lo <= hi
    ensures |r| == (if hi <= |s| then hi - lo else if lo <= |s| then |s| - lo else 0)
    ensures forall k :: 0 <= k < |r| ==> r[k] == s[lo + k]
  {
    var a := if lo <= |s| then lo else |s|;
    var b := if hi <= |s| then hi else |s|;
    s[a..b]
  }

  /** Python's `round()` on a number: to the nearest integer, halves to the even neighbour. */
  function Round(x: real): (n: int)
    ensures n as real - 0.5 <= x <= n as real + 0.5
  {
    var f := x.Floor;
    var d := x - f as real;
    if d < 0.5 then f
    else if d > 0.5 then f + 1
    else if f % 2 == 0 then f else f + 1
  }
}
