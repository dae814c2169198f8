/** The time-of-day text written into `time_string`:
    `sprintf(time_string, "%02d:%02d:%02d:%02d", hours, minutes, seconds,
    milliseconds)` on four `uint16` values, and a parser that reads such a text
    back; `ParseFormatTime` proves it recovers the four values. */
module TimeFormat {
  import opened CTypes

  datatype Option<T> = None | Some(value: T)

  datatype TimeOfDay = TimeOfDay(hours: uint16, minutes: uint16, seconds: uint16, milliseconds: uint16)

  predicate IsDigit(c: char)
  {
    '0' <= c <= '9'
  }

  predicate AllDigits(s: string)
  {
    forall i | 0 <= i < |s| :: IsDigit(s[i])
  }

  function DigitChar(d: nat): (c: char)
    requires d < 10
    ensures IsDigit(c)
  {
    (48 + d) as char
  }

  function DigitValue(c: char): (d: nat)
    requires IsDigit(c)
    ensures d < 10
  {
    c as int - 48
  }

  /** The number a string of decimal digits denotes. */
  function DigitsValue(s: string): nat
    requires AllDigits(s)
  {
    if s == [] then 0 else 10 * DigitsValue(s[..|s| - 1]) + DigitValue(s[|s| - 1])
  }

  function Pow10(k: nat): (p: nat)
    ensures p >= 1
  {
    if k == 0 then 1 else 10 * Pow10(k - 1)
  }

  /** `%d` of a non-negative value: its decimal digits without a leading
      zero, denoting `n`. */
  function Decimal(n: nat): (r: string)
    ensures 1 <= |r| && AllDigits(r)
    ensures DigitsValue(r) == n
    ensures |r| > 1 ==> r[0] != '0'
  {
    if n < 10 then [DigitChar(n)]
    else
      var r := Decimal(n / 10) + [DigitChar(n % 10)];
      assert r[..|r| - 1] == Decimal(n / 10);
      r
  }

  /** A value below `10^k` takes at most `k` digits. */
  lemma {:induction false} DecimalWidth(n: nat, k: nat)
    requires 1 <= k
    ensures n < Pow10(k) ==> |Decimal(n)| <= k
  {
    if 10 <= n < Pow10(k) {
      assert k >= 2;
      assert n / 10 < Pow10(k - 1);
      DecimalWidth(n / 10, k - 1);
    }
  }

  /** A leading zero does not change the value of a digit string. */
  lemma {:induction false} LeadingZero(s: string)
    requires AllDigits(s)
    ensures AllDigits(['0'] + s) && DigitsValue(['0'] + s) == DigitsValue(s)
  {
    if s != [] {
      var z := ['0'] + s;
      assert z[..|z| - 1] == ['0'] + s[..|s| - 1];
      LeadingZero(s[..|s| - 1]);
    }
  }

  /** `%02d`: the decimal digits of `n`, zero-filled on the left to at least
      two characters and no further; a `uint16` takes at most five. */
  function Pad2(n: nat): (r: string)
    ensures 2 <= |r| && AllDigits(r) && DigitsValue(r) == n
    ensures r[0] == '0' ==> |r| == 2
    ensures |r| == if n < 10 then 2 else |Decimal(n)|
    ensures n < 0x1_0000 ==> |r| <= 5
  {
    var d := Decimal(n);
    DecimalWidth(n, 5);
    if |d| < 2 then LeadingZero(d); ['0'] + d else d
  }

  /** The text `getPositionInfo` prints into `time_string`. It is between 11
      and 23 characters long and holds no terminator, so it and its
      terminator fit the 30-character array. */
  function FormatTime(t: TimeOfDay): (r: string)
    ensures 11 <= |r| <= 23
    ensures '\0' !in r
  {
    var r := Pad2(t.hours as nat) + ":" + Pad2(t.minutes as nat) + ":"
      + Pad2(t.seconds as nat) + ":" + Pad2(t.milliseconds as nat);
    assert forall i | 0 <= i < |r| :: IsDigit(r[i]) || r[i] == ':';
    r
  }

  /** The pieces of `s` between colons. */
  function Fields(s: string): (r: seq<string>)
    ensures |r| >= 1
  {
    if s == [] then [""]
    else
      var rest := Fields(s[1..]);
      if s[0] == ':' then [""] + rest else [[s[0]] + rest[0]] + rest[1..]
  }

  /** A colon-free prefix joins the first field of what follows it. */
  lemma {:induction false} FieldsOfPlain(a: string, rest: string)
    requires ':' !in a
    ensures Fields(a + rest) == [a + Fields(rest)[0]] + Fields(rest)[1..]
  {
    var f := Fields(rest);
    if a == [] {
      assert a + rest == rest && a + f[0] == f[0];
      assert f == [f[0]] + f[1..];
    } else {
      assert (a + rest)[1..] == a[1..] + rest;
      FieldsOfPlain(a[1..], rest);
      assert [a[0]] + (a[1..] + f[0]) == a + f[0];
    }
  }

  /** Splitting `a:rest` with a colon-free `a` yields `a` and then the fields
      of `rest`. */
  lemma FieldsOfColon(a: string, rest: string)
    requires ':' !in a
    ensures Fields(a + ":" + rest) == [a] + Fields(rest)
  {
    var c := ":" + rest;
    assert c[1..] == rest;
    assert Fields(c) == [""] + Fields(rest);
    FieldsOfPlain(a, c);
    assert a + ":" + rest == a + c;
    assert a + "" == a;
  }

  /** A field of a time text: at least two digits, denoting a `uint16`. */
  function ParseField(s: string): Option<uint16>
  {
    if 2 <= |s| && AllDigits(s) && DigitsValue(s) < 0x1_0000 then Some(DigitsValue(s) as uint16) else None
  }

  /** Reads an `HH:MM:SS:mm` text back into its four values. */
  function ParseTime(s: string): Option<TimeOfDay>
  {
    var f := Fields(s);
    if |f| != 4 then None
    else
      match (ParseField(f[0]), ParseField(f[1]), ParseField(f[2]), ParseField(f[3]))
      case (Some(h), Some(m), Some(sec), Some(ms)) => Some(TimeOfDay(h, m, sec, ms))
      case _ => None
  }

  lemma NoColonInDigits(p: string)
    requires AllDigits(p)
    ensures ':' !in p
  {
  }

  /** Four colon-free pieces joined by colons split back into those pieces. */
  lemma FieldsOfJoin(h: string, m: string, s: string, ms: string)
    requires ':' !in h && ':' !in m && ':' !in s && ':' !in ms
    ensures Fields(h + ":" + m + ":" + s + ":" + ms) == [h, m, s, ms]
  {
    assert Fields(ms) == [ms] by {
      FieldsOfPlain(ms, "");
      assert ms + "" == ms;
    }
    var c3 := s + ":" + ms;
    FieldsOfColon(s, ms);
    var c2 := m + ":" + c3;
    FieldsOfColon(m, c3);
    var c1 := h + ":" + c2;
    FieldsOfColon(h, c2);
    assert h + ":" + m + ":" + s + ":" + ms == c1;
  }

  /** A time text splits at its colons into the four padded fields. */
  lemma FieldsOfFormatTime(t: TimeOfDay)
    ensures Fields(FormatTime(t)) == [Pad2(t.hours as nat), Pad2(t.minutes as nat), Pad2(t.seconds as nat), Pad2(t.milliseconds as nat)]
  {
    var h, m, s, ms := Pad2(t.hours as nat), Pad2(t.minutes as nat), Pad2(t.seconds as nat), Pad2(t.milliseconds as nat);
    NoColonInDigits(h);
    NoColonInDigits(m);
    NoColonInDigits(s);
    NoColonInDigits(ms);
    FieldsOfJoin(h, m, s, ms);
  }

  /** Every time text reads back as the values it was printed from, so the
      formatting loses nothing on any `uint16` inputs. */
  lemma ParseFormatTime(t: TimeOfDay)
    ensures ParseTime(FormatTime(t)) == Some(t)
  {
    FieldsOfFormatTime(t);
  }

  /** `%02d` pads milliseconds to two digits, not three: 250 ms prints as
      `250`, 5 ms as `05`. */
  lemma FormatTimeExamples()
    ensures FormatTime(TimeOfDay(14, 5, 9, 250)) == "14:05:09:250"
    ensures FormatTime(TimeOfDay(0, 0, 0, 5)) == "00:00:00:05"
  {
  }
}
