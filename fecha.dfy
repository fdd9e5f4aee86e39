/** The `YYYY-MM-DD` string the sales history compares dates with
    (HistorialVentasView.js, in the day filter and in `setFechaHoy`), and the
    proof that it names a valid day unambiguously: the string can be read
    back to the day it was made from. */
module Fecha {
  import opened Domain

  function DigitChar(d: int): char
    requires 0 <= d < 10
  {
    (48 + d) as char
  }

  function DigitValue(c: char): int {
    c as int - 48
  }

  /** `String(n)` for a non-negative integer: its decimal digits, no leading zero. */
  function NatToString(n: nat): (s: string)
    ensures |s| >= 1
    ensures forall i :: 0 <= i < |s| ==> '0' <= s[i] <= '9'
    ensures |s| == 1 <==> n < 10
  {
    if n < 10 then [DigitChar(n)] else NatToString(n / 10) + [DigitChar(n % 10)]
  }

  /** `String(n)` for any integer: a minus sign before the digits of a negative one. */
  function IntToString(n: int): string {
    if n < 0 then "-" + NatToString(-n) else NatToString(n)
  }

  /** `s.padStart(2, '0')` */
  function PadStart2(s: string): string {
    if |s| >= 2 then s else seq(2 - |s|, _ => '0') + s
  }

  /** `${yyyy}-${mm}-${dd}` with month and day padded to two digits. */
  function FormatDate(d: Day): (s: string)
    ensures ValidDay(d) ==>
              |s| >= 7 && s[|s| - 6] == '-' && s[|s| - 3] == '-' &&
              s[..|s| - 6] == IntToString(d.year) &&
              s[|s| - 5..|s| - 3] == PadStart2(IntToString(d.month)) &&
              s[|s| - 2..] == PadStart2(IntToString(d.day))
  {
    var y := IntToString(d.year);
    var m := PadStart2(IntToString(d.month));
    var dd := PadStart2(IntToString(d.day));
    if ValidDay(d) then
      ParsePadded(d.month);
      ParsePadded(d.day);
      JoinedFields(y, m, dd);
      y + "-" + m + "-" + dd
    else
      y + "-" + m + "-" + dd
  }

  /** Reading decimal digits back into a number. */
  function ParseNat(s: string): int {
    if s == [] then 0 else ParseNat(s[..|s| - 1]) * 10 + DigitValue(s[|s| - 1])
  }

  function ParseInt(s: string): int {
    if |s| > 0 && s[0] == '-' then -ParseNat(s[1..]) else ParseNat(s)
  }

  lemma {:induction false} ParseNatToString(n: nat)
    ensures ParseNat(NatToString(n)) == n
  {
    if n >= 10 {
      var s := NatToString(n);
      assert s[..|s| - 1] == NatToString(n / 10);
      ParseNatToString(n / 10);
    }
  }

  lemma ParseIntToString(n: int)
    ensures ParseInt(IntToString(n)) == n
  {
    if n < 0 {
      var digits := NatToString(-n);
      var s := "-" + digits;
      assert s[0] == '-' && s[1..] == digits;
      ParseNatToString(-n);
      assert ParseInt(s) == -ParseNat(digits);
    } else {
      var s := NatToString(n);
      assert '0' <= s[0] <= '9';
      ParseNatToString(n);
      assert ParseInt(s) == ParseNat(s);
    }
  }

  /** A month or day between 1 and 31 pads to exactly two digits that read
      back as the number. */
  lemma ParsePadded(n: int)
    requires 1 <= n <= 31
    ensures |PadStart2(IntToString(n))| == 2
    ensures ParseNat(PadStart2(IntToString(n))) == n
  {
    var s := NatToString(n);
    ParseNatToString(n);
    if n < 10 {
      var p := PadStart2(s);
      assert p == ['0'] + s;
      assert p[..1] == ['0'];
      assert ParseNat(['0']) == 0 by {
        assert ['0'][..0] == [];
      }
      assert p[..|p| - 1] == ['0'];
    } else {
      assert n / 10 < 10;
      assert |NatToString(n / 10)| == 1;
    }
  }

  /** Joining a field with two two-character fields by dashes puts them at
      fixed places from the end. */
  lemma JoinedFields(y: string, m: string, dd: string)
    requires |m| == 2 && |dd| == 2
    ensures var s := y + "-" + m + "-" + dd;
      |s| == |y| + 6 && s[|s| - 6] == '-' && s[|s| - 3] == '-' &&
      s[..|s| - 6] == y && s[|s| - 5..|s| - 3] == m && s[|s| - 2..] == dd
  {
    var s := y + "-" + m + "-" + dd;
    assert s[..|s| - 6] == y;
    assert s[|s| - 5..|s| - 3] == m;
    assert s[|s| - 2..] == dd;
  }

  /** The day a `YYYY-MM-DD` string names: the year before the last six
      characters, the month and the day in the last five and two. */
  function ParseDate(s: string): Day
    requires |s| >= 7
  {
    Day(ParseInt(s[..|s| - 6]), ParseNat(s[|s| - 5..|s| - 3]), ParseNat(s[|s| - 2..]))
  }

  /** A valid day's string reads back as that day. */
  lemma ReadBack(d: Day)
    requires ValidDay(d)
    ensures |FormatDate(d)| >= 7 && ParseDate(FormatDate(d)) == d
  {
    ParseIntToString(d.year);
    ParsePadded(d.month);
    ParsePadded(d.day);
    ReadFields(FormatDate(d), IntToString(d.year), PadStart2(IntToString(d.month)), PadStart2(IntToString(d.day)), d);
  }

  /** A string whose three fields read as a day's year, month and day parses
      as that day. */
  lemma ReadFields(s: string, y: string, m: string, dd: string, d: Day)
    requires |s| >= 7 && s[..|s| - 6] == y && s[|s| - 5..|s| - 3] == m && s[|s| - 2..] == dd
    requires ParseInt(y) == d.year && ParseNat(m) == d.month && ParseNat(dd) == d.day
    ensures ParseDate(s) == d
  {
  }

  /** Two valid days have the same string exactly when they are the same day,
      so comparing strings compares days. */
  lemma FormatDateInjective(a: Day, b: Day)
    requires ValidDay(a) && ValidDay(b)
    ensures FormatDate(a) == FormatDate(b) <==> a == b
  {
    if FormatDate(a) == FormatDate(b) {
      ReadBack(a);
      ReadBack(b);
    }
  }

  /** A day of a four-digit year formats to exactly ten characters. */
  lemma FormatDateLength(d: Day)
    requires ValidDay(d) && 1000 <= d.year <= 9999
    ensures |FormatDate(d)| == 10
  {
    ParsePadded(d.month);
    ParsePadded(d.day);
    var n := d.year;
    assert |IntToString(n)| == 4 by {
      NatToStringGrows(n);
      NatToStringGrows(n / 10);
      NatToStringGrows(n / 100);
      assert n / 10 / 10 == n / 100 && n / 100 / 10 == n / 1000;
      assert |NatToString(n / 1000)| == 1;
    }
  }

  /** Each further digit adds one character. */
  lemma NatToStringGrows(n: nat)
    requires n >= 10
    ensures |NatToString(n)| == |NatToString(n / 10)| + 1
  {
  }
}
