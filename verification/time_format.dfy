/**
 * The `MM:SS` rendering of a number of seconds used by the timer display
 * (TimeFormatPipe.transform). Its implementation is not part of this model;
 * the definition here is fixed by the pipe's test vectors: whole minutes as at
 * least two digits, a colon, then the remaining seconds as exactly two digits.
 */
module TimeFormat {
  import opened Wrappers
  import opened Decimal

  /** `n` in decimal, zero-padded on the left to at least two digits. */
  function Pad2(n: nat): (s: string)
    ensures |s| >= 2 && AllDigits(s) && ParseNat(s) == n
    ensures n < 100 ==> |s| == 2
  {
    ParseNatToString(n);
    if n < 10 then
      ParseNatLeadingZero(NatToString(n));
      "0" + NatToString(n)
    else
      assert n < 100 ==> |NatToString(n / 10)| == 1;
      NatToString(n)
  }

  /** TimeFormatPipe.transform: seconds as `MM:SS`. */
  function FormatTime(seconds: nat): (r: string)
    ensures |r| >= 5 && r[|r| - 3] == ':'
    ensures AllDigits(r[..|r| - 3]) && AllDigits(r[|r| - 2..])
    ensures ParseNat(r[|r| - 2..]) < 60
  {
    var mm, ss := Pad2(seconds / 60), Pad2(seconds % 60);
    assert (mm + ":" + ss)[..|mm|] == mm && (mm + ":" + ss)[|mm| + 1..] == ss;
    mm + ":" + ss
  }

  /** Reads a `MM:SS` string back as a number of seconds. */
  function ParseClock(t: string): Option<nat> {
    if |t| >= 4 && t[|t| - 3] == ':' && AllDigits(t[..|t| - 3]) && AllDigits(t[|t| - 2..]) then
      Some(ParseNat(t[..|t| - 3]) * 60 + ParseNat(t[|t| - 2..]))
    else
      None
  }

  /** A minutes field, a colon and a two-digit seconds field parse field by field. */
  lemma ParseClockFields(mm: string, ss: string)
    requires |mm| >= 1 && AllDigits(mm) && |ss| == 2 && AllDigits(ss)
    ensures ParseClock(mm + ":" + ss) == Some(ParseNat(mm) * 60 + ParseNat(ss))
  {
    var t := mm + ":" + ss;
    assert t[..|t| - 3] == mm;
    assert t[|t| - 2..] == ss;
  }

  /** The rendering loses nothing: the minutes and seconds fields give back the input. */
  lemma FormatTimeRoundTrip(seconds: nat)
    ensures ParseClock(FormatTime(seconds)) == Some(seconds)
  {
    var mm, ss := Pad2(seconds / 60), Pad2(seconds % 60);
    assert FormatTime(seconds) == mm + ":" + ss;
    ParseClockFields(mm, ss);
  }

  /** Distinct second counts never share a rendering. */
  lemma FormatTimeInjective(a: nat, b: nat)
    requires FormatTime(a) == FormatTime(b)
    ensures a == b
  {
    FormatTimeRoundTrip(a);
    FormatTimeRoundTrip(b);
  }

  lemma Pad2Digits(n: nat)
    requires n < 100
    ensures Pad2(n) == [DigitChar(n / 10), DigitChar(n % 10)]
  {
    if n >= 10 {
      assert NatToString(n / 10) == [DigitChar(n / 10)];
    }
  }

  /** Below 100 minutes the rendering is exactly five characters, digit by digit. */
  lemma FormatTimeDigits(seconds: nat)
    requires seconds < 6000
    ensures FormatTime(seconds) == [DigitChar(seconds / 60 / 10), DigitChar(seconds / 60 % 10), ':',
                                    DigitChar(seconds % 60 / 10), DigitChar(seconds % 60 % 10)]
  {
    var m, s := seconds / 60, seconds % 60;
    Pad2Digits(m);
    Pad2Digits(s);
    assert FormatTime(seconds) == Pad2(m) + ":" + Pad2(s);
  }

  /** The vectors of the pipe's first test. */
  lemma FormatTimeVectors()
    ensures FormatTime(0) == "00:00"
    ensures FormatTime(59) == "00:59"
    ensures FormatTime(60) == "01:00"
    ensures FormatTime(125) == "02:05"
    ensures FormatTime(1500) == "25:00"
  {
    FormatTimeDigits(0);
    FormatTimeDigits(59);
    FormatTimeDigits(60);
    FormatTimeDigits(125);
    FormatTimeDigits(1500);
  }

  /** The vectors of the pipe's padding test. */
  lemma FormatTimePadsSingleDigits()
    ensures FormatTime(5) == "00:05"
    ensures FormatTime(65) == "01:05"
  {
    FormatTimeDigits(5);
    FormatTimeDigits(65);
  }
}
