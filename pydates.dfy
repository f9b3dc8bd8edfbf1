/** The parts of Python 2's library that the value translators rely on: `int()` on a
    string, the `date` and `datetime` constructors' validation, and
    `datetime.strptime(s, '%Y%m%d')`. */
module PyDates {
  import opened Errors

  // ---------------------------------------------------------------------------
  // int(s)

  /** C `isspace` in the C locale: space, tab, newline, vertical tab, form feed, return. */
  predicate IsSpace(c: char) { c == ' ' || '\t' <= c <= '\r' }

  predicate IsDigit(c: char) { '0' <= c <= '9' }

  predicate AllDigits(s: string) { forall i :: 0 <= i < |s| ==> IsDigit(s[i]) }

  function DigitValue(c: char): nat
    requires IsDigit(c)
  {
    c as int - '0' as int
  }

  /** The decimal number written by the ASCII digits `s`. */
  function DigitsValue(s: string): nat
    requires AllDigits(s)
  {
    if s == [] then 0 else DigitsValue(s[..|s| - 1]) * 10 + DigitValue(s[|s| - 1])
  }

  /** `s` without its leading whitespace. */
  function TrimLeft(s: string): (t: string)
    ensures |t| <= |s| && t == s[|s| - |t|..]
    ensures t == [] || !IsSpace(t[0])
    ensures forall i :: 0 <= i < |s| - |t| ==> IsSpace(s[i])
  {
    if s != [] && IsSpace(s[0]) then
      var t := TrimLeft(s[1..]);
      assert s[1..][|s| - 1 - |t|..] == s[|s| - |t|..];
      assert forall i :: 1 <= i < |s| - |t| ==> s[i] == s[1..][i - 1];
      t
    else s
  }

  /** `s` without its trailing whitespace. */
  function TrimRight(s: string): (t: string)
    ensures |t| <= |s| && t == s[..|t|]
    ensures t == [] || !IsSpace(t[|t| - 1])
    ensures forall i :: |t| <= i < |s| ==> IsSpace(s[i])
  {
    if s != [] && IsSpace(s[|s| - 1]) then
      var t := TrimRight(s[..|s| - 1]);
      assert s[..|s| - 1][..|t|] == s[..|t|];
      assert forall i :: |t| <= i < |s| - 1 ==> s[i] == s[..|s| - 1][i];
      t
    else s
  }

  /** Python 2's `int(s)` in base 10, which goes through C's strtol: whitespace around
      the number, an optional sign that may itself be followed by whitespace, and at
      least one ASCII digit. Anything else raises ValueError (here: None), in
      particular a string without a digit. */
  function PyInt(s: string): (r: Option<int>)
    ensures r.Some? ==> HasDigit(s)
  {
    var u := TrimLeft(s);
    var t := TrimRight(u);
    TrimmedDigit(s, u, t);
    if |t| > 0 && (t[0] == '-' || t[0] == '+') then
      var body := TrimLeft(t[1..]);
      UnsignedDigit(body);
      HasDigitInSuffix(t[1..], |t| - 1 - |body|);
      match Unsigned(body)
      case Some(n) => Some(if t[0] == '-' then -n else n)
      case None => None
    else
      UnsignedDigit(t);
      Unsigned(t)
  }

  /** The string holds an ASCII digit somewhere. */
  predicate HasDigit(s: string) { exists i :: 0 <= i < |s| && IsDigit(s[i]) }

  lemma HasDigitInSuffix(s: string, k: nat)
    requires k <= |s|
    ensures HasDigit(s[k..]) ==> HasDigit(s)
  {
    if HasDigit(s[k..]) {
      var i :| 0 <= i < |s| - k && IsDigit(s[k..][i]);
      assert s[k..][i] == s[k + i];
    }
  }

  lemma HasDigitInPrefix(s: string, k: nat)
    requires k <= |s|
    ensures HasDigit(s[..k]) ==> HasDigit(s)
  {
    if HasDigit(s[..k]) {
      var i :| 0 <= i < k && IsDigit(s[..k][i]);
      assert s[..k][i] == s[i];
    }
  }

  /** A digit left after trimming, or after trimming and dropping a sign, was in the
      string. */
  lemma TrimmedDigit(s: string, u: string, t: string)
    requires u == TrimLeft(s) && t == TrimRight(u)
    ensures HasDigit(t) ==> HasDigit(s)
    ensures |t| > 0 && HasDigit(t[1..]) ==> HasDigit(s)
  {
    HasDigitInSuffix(s, |s| - |u|);
    HasDigitInPrefix(u, |t|);
    if |t| > 0 { HasDigitInSuffix(t, 1); }
  }

  lemma UnsignedDigit(body: string)
    ensures Unsigned(body).Some? ==> HasDigit(body)
  {
    if Unsigned(body).Some? { assert IsDigit(body[0]); }
  }


  /** The digits after the sign (if any) of int()'s argument. */
  function Unsigned(body: string): Option<int>
  {
    if |body| > 0 && AllDigits(body) then Some(DigitsValue(body)) else None
  }

  /** A slice of a run of digits is a run of digits. */
  lemma DigitsInSlice(s: string, i: nat, j: nat)
    requires i <= j <= |s| && AllDigits(s)
    ensures AllDigits(s[i..j])
  {
    forall k | 0 <= k < j - i ensures IsDigit(s[i..j][k]) { assert s[i..j][k] == s[i + k]; }
  }

  /** A non-empty run of ASCII digits converts to the number it writes. */
  lemma PyIntOfDigits(s: string)
    requires |s| > 0 && AllDigits(s)
    ensures PyInt(s) == Some(DigitsValue(s))
  {
    assert !IsSpace(s[0]) && !IsSpace(s[|s| - 1]);
    assert TrimLeft(s) == s;
    assert TrimRight(s) == s;
    assert !(s[0] == '-' || s[0] == '+');
  }

  lemma DigitsValueOfTwo(s: string)
    requires |s| == 2 && AllDigits(s)
    ensures DigitsValue(s) == DigitValue(s[0]) * 10 + DigitValue(s[1])
  {
    var first := s[..1];
    assert s[..|s| - 1] == first;
    assert first[..|first| - 1] == [];
    assert DigitsValue(first) == DigitValue(s[0]);
  }

  // ---------------------------------------------------------------------------
  // Zero-padded decimal formatting (the inverse of the conversions above)

  function Pow10(n: nat): (p: nat)
    ensures p >= 1
  {
    if n == 0 then 1 else 10 * Pow10(n - 1)
  }

  function DigitChar(d: nat): (c: char)
    requires d < 10
    ensures IsDigit(c) && DigitValue(c) == d
  {
    ('0' as int + d) as char
  }

  /** The last `width` decimal digits of `n`, padded with zeros on the left. */
  function ZeroPad(n: nat, width: nat): (s: string)
    ensures |s| == width && AllDigits(s)
  {
    if width == 0 then "" else ZeroPad(n / 10, width - 1) + [DigitChar(n % 10)]
  }

  /** Zero padding to a width the number fits in loses nothing. */
  lemma {:induction false} ZeroPadValue(n: nat, width: nat)
    requires n < Pow10(width)
    ensures DigitsValue(ZeroPad(n, width)) == n
  {
    if width > 0 {
      ZeroPadValue(n / 10, width - 1);
      var s := ZeroPad(n, width);
      assert s[..|s| - 1] == ZeroPad(n / 10, width - 1);
    }
  }

  // ---------------------------------------------------------------------------
  // date and datetime

  datatype Date = Date(year: int, month: int, day: int)

  predicate IsLeap(year: int) { year % 4 == 0 && (year % 100 != 0 || year % 400 == 0) }

  function DaysInMonth(year: int, month: int): (days: int)
    requires 1 <= month <= 12
    ensures 28 <= days <= 31
    ensures days == 29 <==> month == 2 && IsLeap(year)
  {
    if month == 2 then (if IsLeap(year) then 29 else 28)
    else if month == 4 || month == 6 || month == 9 || month == 11 then 30
    else 31
  }

  /** What `date(year, month, day)` accepts: MINYEAR 1 to MAXYEAR 9999 and a real
      day of the proleptic Gregorian calendar. */
  predicate IsValidDate(year: int, month: int, day: int)
    ensures 1 <= year <= 9999 && 1 <= month <= 12 && 1 <= day <= 28 ==> IsValidDate(year, month, day)
    ensures IsValidDate(year, month, day) ==> 1 <= month <= 12 && 1 <= day <= 31
    ensures IsValidDate(year, month, day) && month == 2 && day == 29 ==> IsLeap(year)
  {
    1 <= year <= 9999 && 1 <= month <= 12 && 1 <= day <= DaysInMonth(year, month)
  }

  /** What `datetime(..., hour, minute, second)` accepts on top of a valid date. */
  predicate IsValidTime(hour: int, minute: int, second: int)
    ensures IsValidTime(hour, minute, second) ==> 0 <= hour * 3600 + minute * 60 + second < 86400
  {
    0 <= hour < 24 && 0 <= minute < 60 && 0 <= second < 60
  }

  /** The zero-padded `YYYYMMDD` text of a date whose year has at most four digits. */
  function FormatYmd(d: Date): (s: string)
    requires IsValidDate(d.year, d.month, d.day)
    ensures |s| == 8 && AllDigits(s)
  {
    ZeroPad(d.year, 4) + ZeroPad(d.month, 2) + ZeroPad(d.day, 2)
  }

  /** The three fixed-width fields of a formatted date read back as written. */
  lemma FormatYmdFields(d: Date)
    requires IsValidDate(d.year, d.month, d.day)
    ensures var s := FormatYmd(d);
      DigitsValue(s[..4]) == d.year && DigitsValue(s[4..6]) == d.month && DigitsValue(s[6..]) == d.day
  {
    var s := FormatYmd(d);
    assert s[..4] == ZeroPad(d.year, 4);
    assert s[4..6] == ZeroPad(d.month, 2);
    assert s[6..] == ZeroPad(d.day, 2);
    ZeroPadValue(d.year, 4);
    ZeroPadValue(d.month, 2);
    ZeroPadValue(d.day, 2);
  }

  // ---------------------------------------------------------------------------
  // datetime.strptime(s, '%Y%m%d').date()
  //
  // CPython 2.7's _strptime turns the format into the regular expression
  //   (?P<Y>\d\d\d\d)(?P<m>1[0-2]|0[1-9]|[1-9])(?P<d>3[01]|[12]\d|0[1-9]|[1-9]| [1-9])
  // and applies `match`, which is anchored at the start only: the first match in
  // backtracking order wins, and text left over after it is an error ("unconverted
  // data remains"). The fields are then converted with int() and validated as a date.

  /** Length of the text that alternative `alt` of the month group matches at `i` (0: none). */
  function MonthAlternative(s: string, i: nat, alt: nat): (n: nat)
    ensures n <= 2 && (n > 0 ==> i + n <= |s|)
  {
    if alt == 0 then (if i + 1 < |s| && s[i] == '1' && '0' <= s[i + 1] <= '2' then 2 else 0)
    else if alt == 1 then (if i + 1 < |s| && s[i] == '0' && '1' <= s[i + 1] <= '9' then 2 else 0)
    else (if i < |s| && '1' <= s[i] <= '9' then 1 else 0)
  }

  /** Length of the text that alternative `alt` of the day group matches at `i` (0: none). */
  function DayAlternative(s: string, i: nat, alt: nat): (n: nat)
    ensures n <= 2 && (n > 0 ==> i + n <= |s|)
  {
    if alt == 0 then (if i + 1 < |s| && s[i] == '3' && '0' <= s[i + 1] <= '1' then 2 else 0)
    else if alt == 1 then (if i + 1 < |s| && '1' <= s[i] <= '2' && IsDigit(s[i + 1]) then 2 else 0)
    else if alt == 2 then (if i + 1 < |s| && s[i] == '0' && '1' <= s[i + 1] <= '9' then 2 else 0)
    else if alt == 3 then (if i < |s| && '1' <= s[i] <= '9' then 1 else 0)
    else if alt == 4 then (if i + 1 < |s| && s[i] == ' ' && '1' <= s[i + 1] <= '9' then 2 else 0)
    else 0
  }

  /** The length matched by the first day alternative, from `alt` on, that matches at `i`. */
  function FirstDayMatch(s: string, i: nat, alt: nat): (r: Option<nat>)
    ensures r.Some? ==> 0 < r.value <= 2 && i + r.value <= |s|
    decreases 5 - alt
  {
    if alt >= 5 then None
    else if DayAlternative(s, i, alt) > 0 then Some(DayAlternative(s, i, alt))
    else FirstDayMatch(s, i, alt + 1)
  }

  /** The lengths of the month and day texts of the first match of the two groups at
      position 4, trying month alternatives from `alt` on. */
  function FirstMonthDayMatch(s: string, alt: nat): (r: Option<(nat, nat)>)
    requires |s| >= 4
    ensures r.Some? ==> 0 < r.value.0 <= 2 && 0 < r.value.1 <= 2 && 4 + r.value.0 + r.value.1 <= |s|
    decreases 3 - alt
  {
    if alt >= 3 then None
    else
      var lm := MonthAlternative(s, 4, alt);
      if lm > 0 && FirstDayMatch(s, 4 + lm, 0).Some? then Some((lm, FirstDayMatch(s, 4 + lm, 0).value))
      else FirstMonthDayMatch(s, alt + 1)
  }

  /** `datetime.strptime(s, '%Y%m%d').date()`: only ValueError is raised, and a result
      is a valid date whose year is the first four characters, read from a string of
      six to eight characters. */
  function StrptimeYmd(s: string): (r: Result<Date>)
    ensures r.Err? ==> r.error == ValueError
    ensures r.Ok? ==> && 6 <= |s| <= 8 && AllDigits(s[..4]) && r.value.year == DigitsValue(s[..4])
                      && IsValidDate(r.value.year, r.value.month, r.value.day)
  {
    if |s| < 4 || !AllDigits(s[..4]) then Err(ValueError)
    else match FirstMonthDayMatch(s, 0)
      case None => Err(ValueError)
      case Some(lengths) => ConvertMatch(s, lengths.0, lengths.1)
  }

  /** The conversion after a match whose month text has length `lm` and day text `ld`. */
  function ConvertMatch(s: string, lm: nat, ld: nat): (r: Result<Date>)
    requires 4 <= |s| && AllDigits(s[..4])
    ensures r.Err? ==> r.error == ValueError
    ensures r.Ok? ==> && |s| == 4 + lm + ld && r.value.year == DigitsValue(s[..4])
                      && IsValidDate(r.value.year, r.value.month, r.value.day)
  {
    if 4 + lm + ld != |s| then Err(ValueError)
    else
      var year, month, day := DigitsValue(s[..4]), PyInt(s[4..4 + lm]), PyInt(s[4 + lm..]);
      if month.Some? && day.Some? && IsValidDate(year, month.value, day.value)
      then Ok(Date(year, month.value, day.value))
      else Err(ValueError)
  }

  /** On eight ASCII digits, strptime succeeds exactly when the fields [0:4], [4:6] and
      [6:8] form a valid date, and then returns that date. */
  lemma StrptimeOfDigits(s: string)
    requires |s| == 8 && AllDigits(s)
    ensures var y, m, d := DigitsValue(s[..4]), DigitsValue(s[4..6]), DigitsValue(s[6..]);
      StrptimeYmd(s) == if IsValidDate(y, m, d) then Ok(Date(y, m, d)) else Err(ValueError)
  {
    if FirstMonthDayMatch(s, 0) == Some((2, 2)) {
      StrptimeOfTwoDigitFields(s);
    } else {
      if IsValidDate(DigitsValue(s[..4]), DigitsValue(s[4..6]), DigitsValue(s[6..])) {
        ValidDateMatchesTwoDigitFields(s);
      }
      StrptimeOfShortMatch(s);
    }
  }

  /** When both groups match two characters the fields are the digit pairs. */
  lemma StrptimeOfTwoDigitFields(s: string)
    requires |s| == 8 && AllDigits(s) && FirstMonthDayMatch(s, 0) == Some((2, 2))
    ensures var y, m, d := DigitsValue(s[..4]), DigitsValue(s[4..6]), DigitsValue(s[6..]);
      StrptimeYmd(s) == if IsValidDate(y, m, d) then Ok(Date(y, m, d)) else Err(ValueError)
  {
    DigitsInSlice(s, 0, 4);
    DigitsInSlice(s, 4, 6);
    DigitsInSlice(s, 6, 8);
    assert s[0..4] == s[..4] && s[6..8] == s[6..];
    assert StrptimeYmd(s) == ConvertMatch(s, 2, 2);
    assert s[4..4 + 2] == s[4..6];
    assert s[4 + 2..] == s[6..];
    PyIntOfDigits(s[4..6]);
    PyIntOfDigits(s[6..]);
  }

  /** Any other match of eight characters leaves data unconverted, or there is no match. */
  lemma StrptimeOfShortMatch(s: string)
    requires |s| == 8 && FirstMonthDayMatch(s, 0) != Some((2, 2))
    ensures StrptimeYmd(s) == Err(ValueError)
  {
    if 4 <= |s| && AllDigits(s[..4]) && FirstMonthDayMatch(s, 0).Some? {
      var lengths := FirstMonthDayMatch(s, 0).value;
      assert 4 + lengths.0 + lengths.1 != |s|;
    }
  }

  /** A valid month and day written with two digits each are matched by two-character
      alternatives, the month's before any shorter one is tried. */
  lemma ValidDateMatchesTwoDigitFields(s: string)
    requires |s| == 8 && AllDigits(s)
    requires IsValidDate(DigitsValue(s[..4]), DigitsValue(s[4..6]), DigitsValue(s[6..]))
    ensures FirstMonthDayMatch(s, 0) == Some((2, 2))
  {
    DigitsValueOfTwo(s[4..6]);
    DigitsValueOfTwo(s[6..]);
    var dalt := if s[6] == '3' then 0 else if s[6] == '0' then 2 else 1;
    assert DayAlternative(s, 6, dalt) == 2;
    assert FirstDayMatch(s, 6, 0) == Some(2);
    if s[4] == '1' {
      assert MonthAlternative(s, 4, 0) == 2;
    } else {
      assert MonthAlternative(s, 4, 0) == 0;
      assert MonthAlternative(s, 4, 1) == 2;
    }
  }

  /** Formatting a valid date as YYYYMMDD and parsing it with strptime gives it back. */
  lemma StrptimeRoundTrip(d: Date)
    requires IsValidDate(d.year, d.month, d.day)
    ensures StrptimeYmd(FormatYmd(d)) == Ok(d)
  {
    FormatYmdFields(d);
    StrptimeOfDigits(FormatYmd(d));
  }
}
