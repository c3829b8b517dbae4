/** The timestamp recogniser of process_data: datetime.strptime with the two formats
    "%Y-%m-%dT%H:%M:%S.%f" and "%Y-%m-%dT%H:%M:%S", tried in that order, and the
    strftime("%Y-%m") month key of the parsed value. */
module Timestamp {
  import opened Wrappers
  import opened Digits

  datatype DateTime = DateTime(year: int, month: int, day: int,
                               hour: int, minute: int, second: int, microsecond: int)

  /** The two accepted formats, with and without the ".%f" fractional seconds. */
  datatype Format = WithFraction | WithoutFraction

  /** The order in which process_data tries the formats. */
  const Formats: seq<Format> := [WithFraction, WithoutFraction]

  predicate IsLeapYear(y: int) { y % 4 == 0 && (y % 100 != 0 || y % 400 == 0) }

  function DaysInMonth(y: int, m: int): (n: int)
    requires 1 <= m <= 12
    ensures 28 <= n <= 31
    ensures n == 29 <==> m == 2 && IsLeapYear(y)
  {
    if m == 2 then (if IsLeapYear(y) then 29 else 28)
    else if m == 4 || m == 6 || m == 9 || m == 11 then 30
    else 31
  }

  /** What datetime accepts: years 1..9999, real calendar days, seconds up to 59. */
  predicate ValidDateTime(t: DateTime) {
    && 1 <= t.year <= 9999
    && 1 <= t.month <= 12
    && 1 <= t.day <= DaysInMonth(t.year, t.month)
    && 0 <= t.hour <= 23
    && 0 <= t.minute <= 59
    && 0 <= t.second <= 59
    && 0 <= t.microsecond <= 999999
  }

  /** The directives that take one or two characters. */
  datatype Field = MonthOfYear | DayOfMonth | Hour | Minute | Second

  /** The range of a two-digit spelling of each directive: %m is 01..12, %d 01..31,
      %H 00..23, %M 00..59 and %S 00..61 (datetime later refuses 60 and 61). */
  function Low(f: Field): int { if f == MonthOfYear || f == DayOfMonth then 1 else 0 }

  function High(f: Field): int {
    match f
    case MonthOfYear => 12
    case DayOfMonth => 31
    case Hour => 23
    case Minute => 59
    case Second => 61
  }

  /** A two-character spelling of a directive and its value; %d also takes a space and a digit. */
  function TwoChar(f: Field, a: char, b: char): Option<int> {
    if IsDigit(a) && IsDigit(b) && Low(f) <= 10 * DigitValue(a) + DigitValue(b) <= High(f) then
      Some(10 * DigitValue(a) + DigitValue(b))
    else if f == DayOfMonth && a == ' ' && IsDigit(b) && b != '0' then
      Some(DigitValue(b))
    else None
  }

  /** A one-character spelling: %m and %d take 1..9, the time directives any digit. */
  function OneChar(f: Field, a: char): Option<int> {
    if IsDigit(a) && (a != '0' || Low(f) == 0) then Some(DigitValue(a)) else None
  }

  /** A literal character of the format; strptime matches case-insensitively, so 'T' also matches 't'. */
  predicate MatchesLiteral(c: char, lit: char) { c == lit || (lit == 'T' && c == 't') }

  /** A directive's spelling must end where the next part of the format begins: at the literal
      `next`, or at the end of the string when it is the last directive. */
  predicate EndsAt(s: string, j: nat, next: Option<char>) {
    match next
    case None => j == |s|
    case Some(c) => j < |s| && MatchesLiteral(s[j], c)
  }

  /** The value of the directive spelled from index i, and where its spelling ends. The digits of
      a spelling are never the literal that follows it, so at most one width can fit. */
  function ReadField(s: string, i: nat, f: Field, next: Option<char>): (r: Option<(int, nat)>)
    ensures r.Some? ==> i < r.value.1 <= i + 2 && EndsAt(s, r.value.1, next)
  {
    if i + 2 <= |s| && EndsAt(s, i + 2, next) && TwoChar(f, s[i], s[i + 1]).Some? then
      Some((TwoChar(f, s[i], s[i + 1]).value, i + 2))
    else if i + 1 <= |s| && EndsAt(s, i + 1, next) && OneChar(f, s[i]).Some? then
      Some((OneChar(f, s[i]).value, i + 1))
    else None
  }

  /** %f at the end of the format: one to six digits up to the end of the string, read as a
      fraction of a second in microseconds ("5" is 500000). */
  function ReadFraction(s: string, i: nat): Option<int> {
    if i <= |s| && 1 <= |s| - i <= 6 && AllDigits(s[i..]) then
      Some(DigitsValue(s[i..]) * Pow10(6 - (|s| - i)))
    else None
  }

  /** datetime.strptime(s, format) for the two formats, None where it raises ValueError. */
  function Strptime(s: string, fmt: Format): (r: Option<DateTime>)
    ensures r.Some? ==> ValidDateTime(r.value)
  {
    if |s| < 5 || !AllDigits(s[..4]) || s[4] != '-' then None
    else
      var fm :- ReadField(s, 5, MonthOfYear, Some('-'));
      var fd :- ReadField(s, fm.1 + 1, DayOfMonth, Some('T'));
      var fh :- ReadField(s, fd.1 + 1, Hour, Some(':'));
      var fi :- ReadField(s, fh.1 + 1, Minute, Some(':'));
      var fs :- ReadField(s, fi.1 + 1, Second, if fmt == WithFraction then Some('.') else None);
      var micro :- if fmt == WithFraction then ReadFraction(s, fs.1 + 1) else Some(0);
      var t := DateTime(DigitsValue(s[..4]), fm.0, fd.0, fh.0, fi.0, fs.0, micro);
      if ValidDateTime(t) then Some(t) else None
  }

  /** The first format of fmts that parses s. */
  function FirstMatch(s: string, fmts: seq<Format>): Option<DateTime> {
    if fmts == [] then None
    else if Strptime(s, fmts[0]).Some? then Strptime(s, fmts[0])
    else FirstMatch(s, fmts[1..])
  }

  /** The timestamp process_data derives: the fractional format first, then the plain one. */
  function ParseTimestamp(s: string): (r: Option<DateTime>)
    ensures Strptime(s, WithFraction).Some? ==> r == Strptime(s, WithFraction)
    ensures Strptime(s, WithFraction).None? ==> r == Strptime(s, WithoutFraction)
    ensures r.Some? ==> ValidDateTime(r.value)
  {
    assert Formats[0] == WithFraction && Formats[1..] == [WithoutFraction];
    assert FirstMatch(s, [WithoutFraction]) == Strptime(s, WithoutFraction) by {
      assert [WithoutFraction][1..] == [];
    }
    FirstMatch(s, Formats)
  }

  /** strftime("%Y-%m"): the year in four digits, a dash, the month in two. */
  function MonthKey(t: DateTime): (m: string)
    requires 0 <= t.year <= 9999 && 0 <= t.month <= 99
    ensures |m| == 7 && m[4] == '-' && AllDigits(m[..4]) && AllDigits(m[5..])
    ensures DigitsValue(m[..4]) == t.year && DigitsValue(m[5..]) == t.month
  {
    var m := Pad(t.year, 4) + "-" + Pad(t.month, 2);
    assert m[..4] == Pad(t.year, 4) && m[5..] == Pad(t.month, 2);
    m
  }

  /** Months are told apart by their keys. */
  lemma MonthKeyInjective(t: DateTime, u: DateTime)
    requires ValidDateTime(t) && ValidDateTime(u)
    ensures MonthKey(t) == MonthKey(u) <==> t.year == u.year && t.month == u.month
  {
    if MonthKey(t) == MonthKey(u) {
      assert MonthKey(t)[..4] == MonthKey(u)[..4] && MonthKey(t)[5..] == MonthKey(u)[5..];
    }
  }

  /** The two formats never both accept a string: the seconds are followed by a '.' in one
      and by the end of the string in the other. */
  lemma FormatsExclusive(s: string)
    ensures Strptime(s, WithFraction).None? || Strptime(s, WithoutFraction).None?
  {
  }

  /** The fixed-width spelling YYYY-MM-DDTHH:MM:SS, optionally followed by '.' and 1..6 digits. */
  predicate IsoShaped(s: string) {
    && |s| >= 19
    && AllDigits(s[0..4]) && s[4] == '-' && AllDigits(s[5..7]) && s[7] == '-'
    && AllDigits(s[8..10]) && s[10] == 'T' && AllDigits(s[11..13]) && s[13] == ':'
    && AllDigits(s[14..16]) && s[16] == ':' && AllDigits(s[17..19])
    && (|s| == 19 || (s[19] == '.' && 21 <= |s| <= 26 && AllDigits(s[20..])))
  }

  /** The fields such a string spells. */
  function IsoFields(s: string): DateTime
    requires IsoShaped(s)
  {
    DateTime(DigitsValue(s[0..4]), DigitsValue(s[5..7]), DigitsValue(s[8..10]),
             DigitsValue(s[11..13]), DigitsValue(s[14..16]), DigitsValue(s[17..19]),
             if |s| == 19 then 0 else DigitsValue(s[20..]) * Pow10(26 - |s|))
  }

  lemma TwoDigits(s: string, i: nat)
    requires i + 2 <= |s| && AllDigits(s[i..i + 2])
    ensures IsDigit(s[i]) && IsDigit(s[i + 1])
    ensures DigitsValue(s[i..i + 2]) == 10 * DigitValue(s[i]) + DigitValue(s[i + 1])
  {
    assert s[i..i + 2][..1] == [s[i]];
    assert s[i..i + 2][1] == s[i + 1];
  }

  /** The date and the hours and minutes of a fixed-width timestamp are read as spelled. */
  lemma CanonicalPrefix(s: string)
    requires IsoShaped(s) && ValidDateTime(IsoFields(s))
    ensures ReadField(s, 5, MonthOfYear, Some('-')) == Some((IsoFields(s).month, 7))
    ensures ReadField(s, 8, DayOfMonth, Some('T')) == Some((IsoFields(s).day, 10))
    ensures ReadField(s, 11, Hour, Some(':')) == Some((IsoFields(s).hour, 13))
    ensures ReadField(s, 14, Minute, Some(':')) == Some((IsoFields(s).minute, 16))
  {
    TwoDigits(s, 5); TwoDigits(s, 8); TwoDigits(s, 11); TwoDigits(s, 14);
  }

  /** Without a fraction, only the plain format accepts the string. */
  lemma CanonicalPlain(s: string)
    requires IsoShaped(s) && ValidDateTime(IsoFields(s)) && |s| == 19
    ensures Strptime(s, WithFraction).None?
    ensures Strptime(s, WithoutFraction) == Some(IsoFields(s))
  {
    CanonicalPrefix(s);
    TwoDigits(s, 17);
    assert s[..4] == s[0..4];
    assert ReadField(s, 17, Second, Some('.')).None?;
    assert ReadField(s, 17, Second, None) == Some((IsoFields(s).second, 19));
  }

  /** With a fraction, the fractional format accepts the string. */
  lemma CanonicalFraction(s: string)
    requires IsoShaped(s) && ValidDateTime(IsoFields(s)) && |s| > 19
    ensures Strptime(s, WithFraction) == Some(IsoFields(s))
  {
    CanonicalPrefix(s);
    TwoDigits(s, 17);
    assert s[..4] == s[0..4];
    assert ReadField(s, 17, Second, Some('.')) == Some((IsoFields(s).second, 19));
    assert ReadFraction(s, 20) == Some(IsoFields(s).microsecond);
  }

  /** A valid fixed-width timestamp parses, to the fields it spells, and its month key is its
      first seven characters. */
  lemma CanonicalTimestamp(s: string)
    requires IsoShaped(s) && ValidDateTime(IsoFields(s))
    ensures ParseTimestamp(s) == Some(IsoFields(s))
    ensures MonthKey(IsoFields(s)) == s[..7]
  {
    if |s| == 19 { CanonicalPlain(s); } else { CanonicalFraction(s); }
    PadDigits(s[0..4]);
    PadDigits(s[5..7]);
    assert s[..7] == s[0..4] + "-" + s[5..7];
  }

  /** One-character fields are accepted, and the month key is re-padded: "2024-1-5T1:2:3"
      belongs to month "2024-01", which is not its first seven characters. */
  lemma ShortFieldsExample()
    ensures ParseTimestamp("2024-1-5T1:2:3") == Some(DateTime(2024, 1, 5, 1, 2, 3, 0))
    ensures MonthKey(DateTime(2024, 1, 5, 1, 2, 3, 0)) == "2024-01"
  {
    ShortFieldsParse();
    ShortFieldsMonth();
  }

  lemma ShortFieldsMonth()
    ensures MonthKey(DateTime(2024, 1, 5, 1, 2, 3, 0)) == "2024-01"
  {
    YearDigits();
    MonthDigits();
    PadDigits("2024");
    PadDigits("01");
    assert "2024" + "-" + "01" == "2024-01";
  }

  lemma YearDigits()
    ensures AllDigits("2024") && DigitsValue("2024") == 2024
  {
    assert "2024"[..3] == "202" && "202"[..2] == "20" && "20"[..1] == "2" && "2"[..0] == "";
  }

  lemma MonthDigits()
    ensures AllDigits("01") && DigitsValue("01") == 1
  {
    assert "01"[..1] == "0" && "0"[..0] == "";
  }

  lemma ShortFieldsParse()
    ensures ParseTimestamp("2024-1-5T1:2:3") == Some(DateTime(2024, 1, 5, 1, 2, 3, 0))
  {
    var s := "2024-1-5T1:2:3";
    ShortFieldsDate();
    ShortFieldsTime();
    assert ValidDateTime(DateTime(2024, 1, 5, 1, 2, 3, 0));
  }

  lemma ShortFieldsDate()
    ensures var s := "2024-1-5T1:2:3";
      && |s| >= 5 && AllDigits(s[..4]) && DigitsValue(s[..4]) == 2024 && s[4] == '-'
      && ReadField(s, 5, MonthOfYear, Some('-')) == Some((1, 6))
      && ReadField(s, 7, DayOfMonth, Some('T')) == Some((5, 8))
  {
    var s := "2024-1-5T1:2:3";
    assert s[..4] == "2024";
    YearDigits();
  }

  lemma ShortFieldsTime()
    ensures var s := "2024-1-5T1:2:3";
      && ReadField(s, 9, Hour, Some(':')) == Some((1, 10))
      && ReadField(s, 11, Minute, Some(':')) == Some((2, 12))
      && ReadField(s, 13, Second, Some('.')).None?
      && ReadField(s, 13, Second, None) == Some((3, 14))
  {
  }

  /** A plain timestamp of the usual shape and the month it falls in. */
  lemma ExampleTimestamp()
    ensures ParseTimestamp("2024-11-01T10:00:00") == Some(DateTime(2024, 11, 1, 10, 0, 0, 0))
    ensures MonthKey(DateTime(2024, 11, 1, 10, 0, 0, 0)) == "2024-11"
  {
    ExampleFields();
    CanonicalTimestamp("2024-11-01T10:00:00");
    ExampleMonth();
  }

  lemma ExampleMonth()
    ensures MonthKey(DateTime(2024, 11, 1, 10, 0, 0, 0)) == "2024-11"
  {
    ExampleDigits();
    PadDigits("2024");
    PadDigits("11");
    assert "2024" + "-" + "11" == "2024-11";
  }

  lemma ExampleFields()
    ensures IsoShaped("2024-11-01T10:00:00")
    ensures IsoFields("2024-11-01T10:00:00") == DateTime(2024, 11, 1, 10, 0, 0, 0)
  {
    ExampleSlices();
    ExampleDigits();
  }

  lemma ExampleSlices()
    ensures var ts := "2024-11-01T10:00:00";
      && ts[0..4] == "2024" && ts[5..7] == "11" && ts[8..10] == "01"
      && ts[11..13] == "10" && ts[14..16] == "00" && ts[17..19] == "00"
  {
    var ts := "2024-11-01T10:00:00";
    assert ts[0..4] == "2024";
    assert ts[5..7] == "11";
    assert ts[8..10] == "01";
    assert ts[11..13] == "10";
    assert ts[14..16] == "00";
    assert ts[17..19] == "00";
  }

  lemma ExampleDigits()
    ensures AllDigits("2024") && DigitsValue("2024") == 2024
    ensures AllDigits("11") && DigitsValue("11") == 11
    ensures AllDigits("01") && DigitsValue("01") == 1
    ensures AllDigits("10") && DigitsValue("10") == 10
    ensures AllDigits("00") && DigitsValue("00") == 0
  {
    assert "2024"[..3] == "202" && "202"[..2] == "20" && "20"[..1] == "2" && "2"[..0] == "";
    assert "11"[..1] == "1" && "1"[..0] == "";
    assert "01"[..1] == "0" && "0"[..0] == "";
    assert "10"[..1] == "1";
    assert "00"[..1] == "0";
  }
}
