/**
 The dashboard renders a patient's wait in seconds as `m:ss` below one hour
 and as `h:mm:ss` from one hour on. This module gives that formatter, a
 reader for the same notation, and proves the rendering loses nothing.
 */
module WaitFormat {
  import opened Types
  import opened Text

  /** Hours, minutes within the hour, seconds within the minute. */
  datatype Clock = Clock(h: nat, m: nat, s: nat)

  /** The field decomposition the formatter performs. */
  function Decompose(seconds: nat): (c: Clock)
    ensures c.m < 60 && c.s < 60
    ensures c.h * 3600 + c.m * 60 + c.s == seconds
  {
    Clock(seconds / 3600, (seconds % 3600) / 60, seconds % 60)
  }

  /** There is only one way to split a duration into hours, minutes below 60
      and seconds below 60, so the decomposition is the unique one. */
  lemma DecomposeUnique(seconds: nat, c: Clock)
    requires c.m < 60 && c.s < 60
    requires c.h * 3600 + c.m * 60 + c.s == seconds
    ensures c == Decompose(seconds)
  {
    var rest := c.m * 60 + c.s;
    assert 0 <= rest < 3600;
    assert seconds / 3600 == c.h;
    assert seconds % 3600 == rest;
    assert rest / 60 == c.m;
  }

  /** The hour field and its separator, present only from one hour on. */
  function HourField(c: Clock): string
  {
    if c.h > 0 then Digits(c.h) + ":" else ""
  }

  /** The '0' before the minutes, written only after an hour field. */
  function MinutePad(c: Clock): string
  {
    if c.m < 10 && c.h > 0 then "0" else ""
  }

  /** The rendered wait, assembled from the same pieces as the dashboard's
      template: optional hour field, conditional minute padding, minutes,
      ':', seconds padding, seconds. */
  function FormatWaitTime(seconds: nat): string
  {
    var c := Decompose(seconds);
    HourField(c) + MinutePad(c) + Digits(c.m) + ":" + ZeroPad(c.s) + Digits(c.s)
  }

  /** Below one hour the output is `m:ss`: unpadded minutes, no hour field. */
  lemma ShortForm(seconds: nat)
    requires seconds < 3600
    ensures FormatWaitTime(seconds) == Digits(seconds / 60) + ":" + Pad2(seconds % 60)
  {
    var m, sec := seconds / 60, seconds % 60;
    assert FormatWaitTime(seconds) == Digits(m) + ":" + (ZeroPad(sec) + Digits(sec)) by {
      var c := Decompose(seconds);
      assert c.h == 0 && c.m == m && c.s == sec;
      var pre := HourField(c) + MinutePad(c) + Digits(c.m) + ":";
      assert pre == Digits(m) + ":";
      assert pre + ZeroPad(c.s) + Digits(c.s) == pre + (ZeroPad(c.s) + Digits(c.s));
    }
    assert Pad2(sec) == ZeroPad(sec) + Digits(sec);
  }

  /** From one hour on the output is `h:mm:ss` with two-digit minutes. */
  lemma LongForm(seconds: nat)
    requires seconds >= 3600
    ensures FormatWaitTime(seconds)
      == Digits(seconds / 3600) + ":" + Pad2((seconds % 3600) / 60) + ":" + Pad2(seconds % 60)
  {
    var c := Decompose(seconds);
    var hh, mm, z, ss := Digits(c.h), Digits(c.m), ZeroPad(c.s), Digits(c.s);
    assert MinutePad(c) == ZeroPad(c.m);
    assert (hh + ":") + ZeroPad(c.m) + mm + ":" + z + ss
      == hh + ":" + (ZeroPad(c.m) + mm) + ":" + (z + ss);
  }

  /** The seconds field is always the last two characters, both digits,
      after a ':' and denoting the seconds within the minute. */
  lemma SecondsField(seconds: nat)
    ensures var r := FormatWaitTime(seconds);
      && 4 <= |r| && r[|r| - 3] == ':'
      && AllDigits(r[|r| - 2..]) && NumeralValue(r[|r| - 2..]) == seconds % 60
  {
    var r := FormatWaitTime(seconds);
    var p: string;
    if seconds < 3600 {
      ShortForm(seconds);
      p := Digits(seconds / 60);
    } else {
      LongForm(seconds);
      p := Digits(seconds / 3600) + ":" + Pad2((seconds % 3600) / 60);
    }
    assert r == p + ":" + Pad2(seconds % 60);
    assert r[|r| - 2..] == Pad2(seconds % 60);
  }

  /** A patient waiting fifteen minutes is shown as "15:00". */
  lemma FifteenMinutes()
    ensures FormatWaitTime(900) == "15:00"
  {
    ShortForm(900);
    assert Digits(15) == Digits(1) + [DigitChar(5)];
  }

  // ------------------------------------------------------------ reading back

  /** Splits a string at every ':'; the result always has at least one field. */
  function SplitColons(s: string): (fields: seq<string>)
    ensures 1 <= |fields|
    decreases |s|
  {
    if |s| == 0 then [""]
    else if s[0] == ':' then [""] + SplitColons(s[1..])
    else
      var rest := SplitColons(s[1..]);
      [[s[0]] + rest[0]] + rest[1..]
  }

  predicate ColonFree(s: string)
  {
    forall i :: 0 <= i < |s| ==> s[i] != ':'
  }

  lemma {:induction false} SplitNoColon(a: string)
    requires ColonFree(a)
    ensures SplitColons(a) == [a]
    decreases |a|
  {
    if |a| > 0 {
      assert ColonFree(a[1..]);
      SplitNoColon(a[1..]);
      assert [a[0]] + a[1..] == a;
    }
  }

  lemma {:induction false} SplitAtColon(a: string, b: string)
    requires ColonFree(a)
    ensures SplitColons(a + ":" + b) == [a] + SplitColons(b)
    decreases |a|
  {
    if |a| == 0 {
      assert a + ":" + b == [':'] + b;
      assert ([':'] + b)[1..] == b;
    } else {
      var s := a + ":" + b;
      assert s[0] == a[0];
      assert s[1..] == a[1..] + ":" + b;
      assert ColonFree(a[1..]);
      SplitAtColon(a[1..], b);
      assert [a[0]] + a[1..] == a;
    }
  }

  lemma NoColonInDigits(s: string)
    requires AllDigits(s)
    ensures ColonFree(s)
  {
  }

  predicate IsNumeral(s: string)
  {
    1 <= |s| && AllDigits(s)
  }

  /** The value of the colon-separated fields of a wait: two numerals are
      minutes and seconds, three are hours, minutes and seconds. */
  function FieldsValue(f: seq<string>): Option<nat>
  {
    if |f| == 2 && IsNumeral(f[0]) && IsNumeral(f[1]) then
      Some(NumeralValue(f[0]) * 60 + NumeralValue(f[1]))
    else if |f| == 3 && IsNumeral(f[0]) && IsNumeral(f[1]) && IsNumeral(f[2]) then
      Some(NumeralValue(f[0]) * 3600 + NumeralValue(f[1]) * 60 + NumeralValue(f[2]))
    else None
  }

  /** Reads `m:ss` or `h:mm:ss` back into seconds; anything else is rejected. */
  function ParseWaitTime(t: string): Option<nat>
  {
    FieldsValue(SplitColons(t))
  }

  lemma ParseTwoFields(mm: string, ss: string)
    requires IsNumeral(mm) && IsNumeral(ss)
    ensures ParseWaitTime(mm + ":" + ss) == Some(NumeralValue(mm) * 60 + NumeralValue(ss))
  {
    NoColonInDigits(mm);
    NoColonInDigits(ss);
    SplitNoColon(ss);
    SplitAtColon(mm, ss);
  }

  lemma FieldsThree(hh: string, mm: string, ss: string)
    requires IsNumeral(hh) && IsNumeral(mm) && IsNumeral(ss)
    ensures FieldsValue([hh, mm, ss])
      == Some(NumeralValue(hh) * 3600 + NumeralValue(mm) * 60 + NumeralValue(ss))
  {
  }

  lemma SplitThree(hh: string, mm: string, ss: string)
    requires ColonFree(hh) && ColonFree(mm) && ColonFree(ss)
    ensures SplitColons(hh + ":" + mm + ":" + ss) == [hh, mm, ss]
  {
    SplitNoColon(ss);
    var tail := mm + ":" + ss;
    SplitAtColon(mm, ss);
    SplitAtColon(hh, tail);
    assert hh + ":" + mm + ":" + ss == hh + ":" + tail;
  }

  lemma ParseThreeFields(hh: string, mm: string, ss: string)
    requires IsNumeral(hh) && IsNumeral(mm) && IsNumeral(ss)
    ensures ParseWaitTime(hh + ":" + mm + ":" + ss)
      == Some(NumeralValue(hh) * 3600 + NumeralValue(mm) * 60 + NumeralValue(ss))
  {
    NoColonInDigits(hh);
    NoColonInDigits(mm);
    NoColonInDigits(ss);
    SplitThree(hh, mm, ss);
    FieldsThree(hh, mm, ss);
  }

  /** A wait under an hour reads back from its "m:ss" form. */
  lemma ShortRoundTrip(seconds: nat)
    requires seconds < 3600
    ensures ParseWaitTime(FormatWaitTime(seconds)) == Some(seconds)
  {
    var c := Decompose(seconds);
    DigitsRoundTrip(c.m);
    ShortForm(seconds);
    ParseTwoFields(Digits(c.m), Pad2(c.s));
  }

  /** A wait of an hour or more reads back from its "h:mm:ss" form. */
  lemma LongRoundTrip(seconds: nat)
    requires seconds >= 3600
    ensures ParseWaitTime(FormatWaitTime(seconds)) == Some(seconds)
  {
    var c := Decompose(seconds);
    DigitsRoundTrip(c.m);
    LongForm(seconds);
    DigitsRoundTrip(c.h);
    ParseThreeFields(Digits(c.h), Pad2(c.m), Pad2(c.s));
  }

  /** Every rendered wait reads back as the number of seconds it came from. */
  lemma FormatRoundTrip(seconds: nat)
    ensures ParseWaitTime(FormatWaitTime(seconds)) == Some(seconds)
  {
    if seconds < 3600 {
      ShortRoundTrip(seconds);
    } else {
      LongRoundTrip(seconds);
    }
  }

  /** Distinct waits are never rendered alike. */
  lemma FormatInjective(a: nat, b: nat)
    requires FormatWaitTime(a) == FormatWaitTime(b)
    ensures a == b
  {
    FormatRoundTrip(a);
    FormatRoundTrip(b);
  }
}
