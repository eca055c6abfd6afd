/** `time_format`: a number of seconds rendered as hours, minutes and seconds, and a reader
    for the strings it produces, which serves as its inverse. */
module Durations {
  import opened Wrappers
  import opened Text

  const MinuteSecs := 60
  const HourSecs := 3600
  const DaySecs := 86400

  /** The three displayed components. Python's `//` and `%` by a positive divisor round toward
      minus infinity, which is what Dafny's `/` and `%` do for a positive divisor. */
  function Hours(seconds: int): nat { seconds / HourSecs % 24 }
  function Minutes(seconds: int): nat { seconds % HourSecs / MinuteSecs }
  function Secs(seconds: int): nat { seconds % HourSecs % MinuteSecs }

  /** `time_format`. The hour count wraps at 24, so a non-zero multiple of a day has every
      component zero and falls off the end of the if-chain: the result is Python's None. */
  function TimeFormat(seconds: int): Option<string> {
    var h, m, s := Hours(seconds), Minutes(seconds), Secs(seconds);
    if h > 0 then Some(HmsText(h, m, s))
    else if m > 0 then Some(MsText(m, s))
    else if s > 0 then Some(SText(s))
    else if seconds == 0 then Some("0s")
    else None
  }

  /** The three shapes of `'{:d}h{:d}m{:d}s'.format(...)` and its shorter variants. */
  function HmsText(h: nat, m: nat, s: nat): string {
    NatToString(h) + "h" + NatToString(m) + "m" + NatToString(s) + "s"
  }

  function MsText(m: nat, s: nat): string {
    NatToString(m) + "m" + NatToString(s) + "s"
  }

  function SText(s: nat): string {
    NatToString(s) + "s"
  }

  /** How an f-string shows the result: `None` prints as the four letters "None". */
  function Shown(t: Option<string>): string {
    t.GetOr("None")
  }

  lemma ComponentBounds(seconds: int)
    ensures Hours(seconds) < 24 && Minutes(seconds) < 60 && Secs(seconds) < 60
  {
  }

  lemma MulAtLeast(d: int, k: int)
    requires d > 0 && k >= 1
    ensures d * k >= d
  {
  }

  lemma ModUnique(x: int, d: int, q: int, r: int)
    requires d > 0 && x == d * q + r && 0 <= r < d
    ensures x % d == r
  {
    var q', r' := x / d, x % d;
    assert d * q' + r' == d * q + r;
    if q' > q {
      assert d * (q' - q) == r - r';
      MulAtLeast(d, q' - q);
    } else if q' < q {
      assert d * (q - q') == r' - r;
      MulAtLeast(d, q - q');
    }
  }

  /** The components re-assemble the time of day: seconds modulo one day. */
  lemma {:induction false} Decompose(seconds: int)
    ensures seconds % DaySecs == Hours(seconds) * 3600 + Minutes(seconds) * 60 + Secs(seconds)
  {
    var q, r := seconds / HourSecs, seconds % HourSecs;
    var days, h := q / 24, q % 24;
    assert q == 24 * days + h;
    assert seconds == HourSecs * q + r;
    assert seconds == DaySecs * days + (HourSecs * h + r);
    ModUnique(seconds, DaySecs, days, HourSecs * h + r);
    assert r == MinuteSecs * (r / MinuteSecs) + r % MinuteSecs;
  }

  /** `time_format` has no result exactly for the non-zero multiples of a day. */
  lemma {:induction false} TimeFormatNoneIff(seconds: int)
    ensures TimeFormat(seconds).None? <==> seconds != 0 && seconds % DaySecs == 0
  {
    Decompose(seconds);
  }

  /** The leading run of decimal digits of `s`. */
  function DigitRun(s: string): (k: nat)
    ensures k <= |s|
  {
    if s != [] && IsDigit(s[0]) then 1 + DigitRun(s[1..]) else 0
  }

  /** Reads `<digits><unit>` off the front of `s`: the number, the unit letter, and the rest. */
  function ReadField(s: string): Option<(nat, char, string)> {
    var k := DigitRun(s);
    if k == 0 || k == |s| then None else Some((DigitsValue(s[..k]), s[k], s[k + 1..]))
  }

  /** Reads `<digits>s` and nothing after it. */
  function ReadSeconds(s: string): Option<nat> {
    match ReadField(s)
    case None => None
    case Some((c, unit, rest)) => if unit == 's' && rest == [] then Some(c) else None
  }

  /** Reads a string of the shapes `time_format` writes ("XhYmZs", "YmZs", "Zs") back into
      seconds; anything else is None. */
  function ParseDuration(t: string): Option<int> {
    match ReadField(t)
    case None => None
    case Some((a, unit, rest)) =>
      if unit == 's' then (if rest == [] then Some(a) else None)
      else if unit == 'm' then
        (match ReadSeconds(rest)
         case Some(b) => Some(a * 60 + b)
         case None => None)
      else if unit == 'h' then
        (match ReadField(rest)
         case None => None
         case Some((b, unit', rest')) =>
           if unit' != 'm' then None
           else match ReadSeconds(rest')
                case Some(c) => Some(a * 3600 + b * 60 + c)
                case None => None)
      else None
  }

  lemma {:induction false} DigitRunOf(d: string, u: char, rest: string)
    requires AllDigits(d) && !IsDigit(u)
    ensures DigitRun(d + [u] + rest) == |d|
    decreases |d|
  {
    if d != [] {
      assert (d + [u] + rest)[1..] == d[1..] + [u] + rest;
      DigitRunOf(d[1..], u, rest);
    }
  }

  lemma ReadFieldOf(n: nat, u: char, rest: string)
    requires !IsDigit(u)
    ensures ReadField(NatToString(n) + [u] + rest) == Some((n, u, rest))
  {
    var d := NatToString(n);
    var s := d + [u] + rest;
    DigitRunOf(d, u, rest);
    assert s[..|d|] == d;
    assert s[|d| + 1..] == rest;
    DigitsValueOfNatToString(n);
  }

  lemma ParseHmsFields(h: nat, m: nat, s: nat, t: string, afterH: string, afterM: string)
    requires ReadField(t) == Some((h, 'h', afterH))
    requires ReadField(afterH) == Some((m, 'm', afterM))
    requires ReadSeconds(afterM) == Some(s)
    ensures ParseDuration(t) == Some(h * 3600 + m * 60 + s)
  {
  }

  lemma HmsShape(h: nat, m: nat, s: nat)
    ensures HmsText(h, m, s) == NatToString(h) + ['h'] + (NatToString(m) + ['m'] + (NatToString(s) + ['s'] + []))
  {
  }

  lemma MsShape(m: nat, s: nat)
    ensures MsText(m, s) == NatToString(m) + ['m'] + (NatToString(s) + ['s'] + [])
  {
  }

  lemma ReadSecondsOf(s: nat)
    ensures ReadSeconds(NatToString(s) + ['s'] + []) == Some(s)
  {
    ReadFieldOf(s, 's', []);
  }

  lemma ParsesHms(h: nat, m: nat, s: nat)
    ensures ParseDuration(HmsText(h, m, s)) == Some(h * 3600 + m * 60 + s)
  {
    var afterM := NatToString(s) + ['s'] + [];
    var afterH := NatToString(m) + ['m'] + afterM;
    HmsShape(h, m, s);
    ReadFieldOf(h, 'h', afterH);
    ReadFieldOf(m, 'm', afterM);
    ReadSecondsOf(s);
    ParseHmsFields(h, m, s, NatToString(h) + ['h'] + afterH, afterH, afterM);
  }

  lemma ParsesMs(m: nat, s: nat)
    ensures ParseDuration(MsText(m, s)) == Some(m * 60 + s)
  {
    var afterM := NatToString(s) + ['s'] + [];
    MsShape(m, s);
    ReadFieldOf(m, 'm', afterM);
    ReadSecondsOf(s);
  }

  lemma ParsesS(s: nat)
    ensures ParseDuration(SText(s)) == Some(s)
  {
    assert SText(s) == NatToString(s) + ['s'] + [];
    ReadFieldOf(s, 's', []);
  }

  /** Reading back what `time_format` wrote gives the time of day it displayed. */
  lemma {:induction false} TimeFormatRoundTrip(seconds: int)
    requires TimeFormat(seconds).Some?
    ensures ParseDuration(TimeFormat(seconds).value) == Some(seconds % DaySecs)
  {
    var h, m, s := Hours(seconds), Minutes(seconds), Secs(seconds);
    Decompose(seconds);
    var total := h * 3600 + m * 60 + s;
    assert total == seconds % DaySecs;
    if h > 0 {
      assert TimeFormat(seconds) == Some(HmsText(h, m, s));
      ParsesHms(h, m, s);
    } else if m > 0 {
      assert TimeFormat(seconds) == Some(MsText(m, s));
      ParsesMs(m, s);
    } else if s > 0 {
      assert TimeFormat(seconds) == Some(SText(s));
      ParsesS(s);
    } else {
      assert TimeFormat(seconds).value == SText(0);
      ParsesS(0);
    }
  }

  /** For a duration shorter than a day `time_format` loses nothing. */
  lemma {:induction false} TimeFormatExactUnderADay(seconds: int)
    requires 0 <= seconds < DaySecs
    ensures TimeFormat(seconds).Some?
    ensures ParseDuration(TimeFormat(seconds).value) == Some(seconds)
  {
    ModUnique(seconds, DaySecs, 0, seconds);
    TimeFormatNoneIff(seconds);
    TimeFormatRoundTrip(seconds);
  }
}
