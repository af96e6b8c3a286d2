/** The timestamp shown beside a message, "Jour D - HH:MM" in French, built
    from the components the browser's `Date` extracts (weekday 0..6 starting
    on Sunday, day of the month, hours, minutes). */
module MessageDate {
  import opened Base

  const Weekdays: seq<string> := ["Dim", "Lun", "Mar", "Mer", "Jeu", "Ven", "Sam"]

  predicate IsDigit(c: char) {
    '0' <= c <= '9'
  }

  predicate AllDigits(s: string) {
    forall i :: 0 <= i < |s| ==> IsDigit(s[i])
  }

  function DigitChar(d: nat): (c: char)
    requires d < 10
    ensures IsDigit(c)
  {
    ('0' as int + d) as char
  }

  function DigitValue(c: char): (d: nat)
    requires IsDigit(c)
    ensures d < 10 && DigitChar(d) == c
  {
    c as int - '0' as int
  }

  /** `n.toString()` for a non-negative integer: at least one digit, and no
      leading zero unless the number is zero. */
  function Decimal(n: nat): (s: string)
    ensures 1 <= |s| && AllDigits(s)
    ensures |s| == 1 <==> n < 10
    ensures |s| > 1 ==> s[0] != '0'
    decreases n
  {
    if n < 10 then [DigitChar(n)] else Decimal(n / 10) + [DigitChar(n % 10)]
  }

  /** Reading a string of digits back as a number, most significant first. */
  function ParseDecimal(s: string): nat
    requires AllDigits(s)
    decreases |s|
  {
    if s == [] then 0 else ParseDecimal(s[..|s| - 1]) * 10 + DigitValue(s[|s| - 1])
  }

  lemma {:induction false} DecimalRoundTrip(n: nat)
    ensures ParseDecimal(Decimal(n)) == n
    decreases n
  {
    if n >= 10 {
      DecimalRoundTrip(n / 10);
      var s := Decimal(n);
      assert s[..|s| - 1] == Decimal(n / 10);
      assert DigitValue(DigitChar(n % 10)) == n % 10;
    } else {
      assert DigitValue(DigitChar(n)) == n;
      assert Decimal(n)[..0] == [];
    }
  }

  /** `s.padStart(2, '0')`: strings of two or more characters are kept,
      shorter ones get zeros on the left up to two characters. */
  function PadStart2(s: string): (r: string)
    ensures |s| >= 2 ==> r == s
    ensures |s| < 2 ==> |r| == 2 && r[2 - |s|..] == s && forall i :: 0 <= i < 2 - |s| ==> r[i] == '0'
  {
    if |s| >= 2 then s else seq(2 - |s|, _ => '0') + s
  }

  /** Hours and minutes as displayed. */
  function TwoDigits(n: nat): string {
    PadStart2(Decimal(n))
  }

  /** A value below 100 is shown in exactly two digits that read back as
      the value. */
  lemma TwoDigitsExact(n: nat)
    requires n < 100
    ensures var r := TwoDigits(n);
      |r| == 2 && AllDigits(r) && ParseDecimal(r) == n
  {
    DecimalRoundTrip(n);
    var d := Decimal(n);
    var r := TwoDigits(n);
    if n < 10 {
      assert r == ['0'] + d;
      assert r[..1] == ['0'];
      assert ParseDecimal(r[..1][..0]) == 0;
    } else {
      assert Decimal(n / 10) == [DigitChar(n / 10)];
      assert r == d;
    }
  }

  function WeekdayIndex(name: string): Option<nat> {
    if name == "Dim" then Some(0)
    else if name == "Lun" then Some(1)
    else if name == "Mar" then Some(2)
    else if name == "Mer" then Some(3)
    else if name == "Jeu" then Some(4)
    else if name == "Ven" then Some(5)
    else if name == "Sam" then Some(6)
    else None
  }

  /** The seven abbreviations are distinct, in the order of `getDay`. */
  lemma WeekdayIndexInverts(w: nat)
    requires w < 7
    ensures |Weekdays[w]| == 3
    ensures WeekdayIndex(Weekdays[w]) == Some(w)
  {
    if w == 0 {
    } else if w == 1 {
      assert "Lun"[0] != "Dim"[0];
    } else if w == 2 {
      assert "Mar"[0] != "Dim"[0] && "Mar"[0] != "Lun"[0];
    } else if w == 3 {
      assert "Mer"[0] != "Dim"[0] && "Mer"[0] != "Lun"[0] && "Mer"[1] != "Mar"[1];
    } else if w == 4 {
      assert "Jeu"[0] != "Dim"[0] && "Jeu"[0] != "Lun"[0] && "Jeu"[0] != "Mar"[0] && "Jeu"[0] != "Mer"[0];
    } else if w == 5 {
      assert "Ven"[0] != "Dim"[0] && "Ven"[0] != "Lun"[0] && "Ven"[0] != "Mar"[0] && "Ven"[0] != "Mer"[0];
      assert "Ven"[0] != "Jeu"[0];
    } else {
      assert "Sam"[0] != "Dim"[0] && "Sam"[0] != "Lun"[0] && "Sam"[0] != "Mar"[0] && "Sam"[0] != "Mer"[0];
      assert "Sam"[0] != "Jeu"[0] && "Sam"[0] != "Ven"[0];
    }
  }

  /** `formatMessageDate`: the weekday abbreviation, a space, the day of the
      month without padding, " - ", the hours and the minutes in two digits
      each, separated by a colon. The ranges are those `Date` produces. */
  function FormatMessageDate(weekday: nat, day: nat, hour: nat, minute: nat): (r: string)
    requires weekday < 7 && 1 <= day <= 31 && hour < 24 && minute < 60
    ensures |r| == 12 + |Decimal(day)| && 13 <= |r| <= 14
    ensures r[..3] == Weekdays[weekday] && r[3] == ' ' && r[4..|r| - 8] == Decimal(day)
    ensures r[|r| - 8..|r| - 5] == " - " && r[|r| - 3] == ':'
    ensures AllDigits(r[|r| - 5..|r| - 3]) && ParseDecimal(r[|r| - 5..|r| - 3]) == hour
    ensures AllDigits(r[|r| - 2..]) && ParseDecimal(r[|r| - 2..]) == minute
  {
    WeekdayIndexInverts(weekday);
    TwoDigitsExact(hour);
    TwoDigitsExact(minute);
    var hh := TwoDigits(hour);
    var mm := TwoDigits(minute);
    var r := Weekdays[weekday] + " " + Decimal(day) + " - " + hh + ":" + mm;
    assert r[|r| - 5..|r| - 3] == hh;
    assert r[|r| - 2..] == mm;
    r
  }

  datatype DateParts = DateParts(weekday: nat, day: nat, hour: nat, minute: nat)

  /** Reading a displayed timestamp back into its components. */
  function ParseMessageDate(s: string): Option<DateParts> {
    if |s| < 13 || s[3] != ' ' then None
    else
      var name, dd, hh, mm := s[..3], s[4..|s| - 8], s[|s| - 5..|s| - 3], s[|s| - 2..];
      var w := WeekdayIndex(name);
      if w.None? || s[|s| - 8..|s| - 5] != " - " || s[|s| - 3] != ':' then None
      else if !AllDigits(dd) || !AllDigits(hh) || !AllDigits(mm) then None
      else Some(DateParts(w.value, ParseDecimal(dd), ParseDecimal(hh), ParseDecimal(mm)))
  }

  /** The display loses nothing: every component reads back from the text. */
  lemma FormatRoundTrip(weekday: nat, day: nat, hour: nat, minute: nat)
    requires weekday < 7 && 1 <= day <= 31 && hour < 24 && minute < 60
    ensures ParseMessageDate(FormatMessageDate(weekday, day, hour, minute)) == Some(DateParts(weekday, day, hour, minute))
  {
    var r := FormatMessageDate(weekday, day, hour, minute);
    WeekdayIndexInverts(weekday);
    DecimalRoundTrip(day);
    TwoDigitsExact(hour);
    TwoDigitsExact(minute);
  }
}
