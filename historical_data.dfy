/** untws/historical_data.py: parsing a bar's date string and the read-only bar record. */
module HistoricalData {
  import opened Errors
  import opened PyDates

  /** A bar's date: a calendar date when the string has no time part, a full
      timestamp otherwise. */
  datatype Timestamp =
    | DateValue(date: Date)
    | DateTimeValue(date: Date, hour: int, minute: int, second: int)

  // ---------------------------------------------------------------------------
  // str.split(' ') and the filter that drops empty pieces

  /** Python's `s.split(sep)` with an explicit separator: every occurrence splits,
      so adjacent separators give empty pieces. */
  function SplitOn(s: string, sep: char): (pieces: seq<string>)
    ensures |pieces| > 0
    ensures forall i :: 0 <= i < |pieces| ==> sep !in pieces[i]
  {
    if s == [] then [""]
    else
      var rest := SplitOn(s[1..], sep);
      if s[0] == sep then [""] + rest
      else [[s[0]] + rest[0]] + rest[1..]
  }

  /** `sep.join(pieces)`. */
  function Join(pieces: seq<string>, sep: char): string
    requires |pieces| > 0
  {
    if |pieces| == 1 then pieces[0] else pieces[0] + [sep] + Join(pieces[1..], sep)
  }

  /** Splitting loses nothing: joining the pieces with the separator restores the string. */
  lemma {:induction false} JoinSplit(s: string, sep: char)
    ensures Join(SplitOn(s, sep), sep) == s
  {
    if s != [] {
      var rest := SplitOn(s[1..], sep);
      JoinSplit(s[1..], sep);
      if s[0] != sep {
        var pieces := SplitOn(s, sep);
        if |rest| == 1 {
          assert pieces == [[s[0]] + rest[0]];
        } else {
          assert pieces[1..] == rest[1..];
          assert Join(pieces, sep) == [s[0]] + rest[0] + [sep] + Join(rest[1..], sep);
        }
      }
    }
  }

  /** `[x for x in pieces if len(x) > 0]`: the non-empty pieces, and every one of
      them. */
  function NonEmpty(pieces: seq<string>): (kept: seq<string>)
    ensures forall i :: 0 <= i < |kept| ==> kept[i] != [] && kept[i] in pieces
    ensures forall p :: p in pieces && p != [] ==> p in kept
  {
    if pieces == [] then []
    else if pieces[0] == [] then NonEmpty(pieces[1..])
    else [pieces[0]] + NonEmpty(pieces[1..])
  }

  /** The filter keeps a single piece exactly when it is non-empty. */
  lemma NonEmptySingle(p: string)
    ensures NonEmpty([p]) == if p == [] then [] else [p]
  {
    assert [p][1..] == [];
  }

  /** The filter on a piece followed by more pieces. */
  lemma NonEmptyCons(p: string, rest: seq<string>)
    ensures NonEmpty([p] + rest) == (if p == [] then [] else [p]) + NonEmpty(rest)
  {
    assert ([p] + rest)[1..] == rest;
    if p == [] { assert [] + NonEmpty(rest) == NonEmpty(rest); }
  }

  /** The filter works piece by piece: it keeps the order of the pieces it keeps. */
  lemma {:induction false} NonEmptyConcat(a: seq<string>, b: seq<string>)
    ensures NonEmpty(a + b) == NonEmpty(a) + NonEmpty(b)
  {
    if a == [] {
      assert a + b == b;
    } else {
      var head: seq<string> := if a[0] == [] then [] else [a[0]];
      calc {
        NonEmpty(a + b);
        { assert a + b == [a[0]] + (a[1..] + b); }
        NonEmpty([a[0]] + (a[1..] + b));
        { NonEmptyCons(a[0], a[1..] + b); }
        head + NonEmpty(a[1..] + b);
        { NonEmptyConcat(a[1..], b); }
        head + (NonEmpty(a[1..]) + NonEmpty(b));
        (head + NonEmpty(a[1..])) + NonEmpty(b);
        { NonEmptyCons(a[0], a[1..]); assert [a[0]] + a[1..] == a; }
        NonEmpty(a) + NonEmpty(b);
      }
    }
  }

  /** A string without the separator is a single piece. */
  lemma {:induction false} SplitWithoutSeparator(s: string, sep: char)
    requires sep !in s
    ensures SplitOn(s, sep) == [s]
  {
    if s != [] {
      assert s[0] in s;
      SplitWithoutSeparator(s[1..], sep);
      assert [s[0]] + s[1..] == s;
    }
  }

  /** A separator-free prefix becomes the first piece. */
  lemma {:induction false} SplitAfterWord(a: string, b: string, sep: char)
    requires sep !in a
    ensures SplitOn(a + [sep] + b, sep) == [a] + SplitOn(b, sep)
  {
    if a != [] {
      var x := a + [sep] + b;
      assert a[0] in a;
      assert x[0] == a[0] && x[1..] == a[1..] + [sep] + b;
      SplitAfterWord(a[1..], b, sep);
      assert [a[0]] + a[1..] == a;
    } else {
      assert a + [sep] + b == [sep] + b;
      assert ([sep] + b)[1..] == b;
    }
  }

  /** `k` spaces. */
  function Spaces(k: nat): (s: string)
    ensures |s| == k && forall i :: 0 <= i < k ==> s[i] == ' '
  {
    if k == 0 then "" else [' '] + Spaces(k - 1)
  }

  /** Leading separators only add empty pieces, which the filter drops. */
  lemma {:induction false} LeadingSpacesDropped(k: nat, b: string)
    ensures NonEmpty(SplitOn(Spaces(k) + b, ' ')) == NonEmpty(SplitOn(b, ' '))
  {
    if k > 0 {
      var rest := Spaces(k - 1) + b;
      var empty: string := [];
      assert Spaces(k) + b == empty + [' '] + rest;
      SplitAfterWord(empty, rest, ' ');
      var pieces := [empty] + SplitOn(rest, ' ');
      assert SplitOn(Spaces(k) + b, ' ') == pieces;
      assert pieces[0] == [] && pieces[1..] == SplitOn(rest, ' ');
      assert NonEmpty(pieces) == NonEmpty(SplitOn(rest, ' '));
      LeadingSpacesDropped(k - 1, b);
    } else {
      assert Spaces(k) + b == b;
    }
  }

  /** Two words separated by one or more spaces give exactly those two words. */
  lemma TwoWords(a: string, k: nat, b: string)
    requires a != [] && b != [] && ' ' !in a && ' ' !in b && k > 0
    ensures NonEmpty(SplitOn(a + Spaces(k) + b, ' ')) == [a, b]
  {
    assert a + Spaces(k) + b == a + [' '] + (Spaces(k - 1) + b);
    SplitAfterWord(a, Spaces(k - 1) + b, ' ');
    LeadingSpacesDropped(k - 1, b);
    SplitWithoutSeparator(b, ' ');
    assert NonEmpty([b]) == [b];
  }

  // ---------------------------------------------------------------------------
  // parse_date

  /** Python's `s[i:j]` for 0 <= i <= j: both ends are clamped to the length. */
  function PySlice(s: string, i: nat, j: nat): (r: string)
    requires i <= j
    ensures j <= |s| ==> r == s[i..j]
    ensures |r| <= j - i && (i <= |s| ==> r == s[i..if j <= |s| then j else |s|])
    ensures |s| <= i ==> r == ""
  {
    if j <= |s| then s[i..j] else if i <= |s| then s[i..] else ""
  }

  /** `parse_date(s)`: eight characters are read as YYYYMMDD; anything else must split
      on spaces into exactly a date piece and a time piece. */
  function ParseDate(s: string): (r: Result<Timestamp>)
    ensures r.Err? ==> r.error == ValueError
    ensures r.Ok? ==> (r.value.DateValue? <==> |s| == 8)
    ensures r.Ok? ==> IsValidDate(r.value.date.year, r.value.date.month, r.value.date.day)
    ensures r.Ok? && r.value.DateTimeValue? ==> IsValidTime(r.value.hour, r.value.minute, r.value.second)
  {
    if |s| == 8 then ParseYmd(s)
    else
      var pieces := NonEmpty(SplitOn(s, ' '));
      if |pieces| != 2 then Err(ValueError)
      else ParseDateTime(pieces[0], pieces[1])
  }

  /** The eight-character case: year, month and day from [0:4], [4:6] and [6:8]. */
  function ParseYmd(s: string): (r: Result<Timestamp>)
    requires |s| == 8
    ensures r.Err? ==> r.error == ValueError
    ensures r.Ok? ==> r.value.DateValue? && IsValidDate(r.value.date.year, r.value.date.month, r.value.date.day)
  {
    var year, month, day := PyInt(s[0..4]), PyInt(s[4..6]), PyInt(s[6..8]);
    if year.Some? && month.Some? && day.Some? && IsValidDate(year.value, month.value, day.value)
    then Ok(DateValue(Date(year.value, month.value, day.value)))
    else Err(ValueError)
  }

  /** The two-piece case: date fields from [0:4], [4:6], [6:8] of the first piece, time
      fields from [0:2], [3:5], [6:8] of the second. */
  function ParseDateTime(dt: string, tm: string): (r: Result<Timestamp>)
    ensures r.Err? ==> r.error == ValueError
    ensures r.Ok? ==> && r.value.DateTimeValue?
                      && IsValidDate(r.value.date.year, r.value.date.month, r.value.date.day)
                      && IsValidTime(r.value.hour, r.value.minute, r.value.second)
  {
    var year, month, day := PyInt(PySlice(dt, 0, 4)), PyInt(PySlice(dt, 4, 6)), PyInt(PySlice(dt, 6, 8));
    var hour, minute, second := PyInt(PySlice(tm, 0, 2)), PyInt(PySlice(tm, 3, 5)), PyInt(PySlice(tm, 6, 8));
    if year.Some? && month.Some? && day.Some? && hour.Some? && minute.Some? && second.Some?
       && IsValidDate(year.value, month.value, day.value)
       && IsValidTime(hour.value, minute.value, second.value)
    then Ok(DateTimeValue(Date(year.value, month.value, day.value), hour.value, minute.value, second.value))
    else Err(ValueError)
  }

  /** A string that is not eight characters long and does not split into exactly two
      pieces is rejected. */
  lemma ParseDateNeedsTwoPieces(s: string)
    requires |s| != 8 && |NonEmpty(SplitOn(s, ' '))| != 2
    ensures ParseDate(s) == Err(ValueError)
  {
  }

  /** The characters between the time fields (positions 2 and 5 of the time piece) are
      never looked at. */
  lemma TimeSeparatorsUnchecked(dt: string, tm: string, c2: char, c5: char)
    requires |tm| >= 6
    ensures ParseDateTime(dt, tm) == ParseDateTime(dt, tm[2 := c2][5 := c5])
  {
    var tm' := tm[2 := c2][5 := c5];
    assert PySlice(tm, 0, 2) == PySlice(tm', 0, 2);
    assert PySlice(tm, 3, 5) == PySlice(tm', 3, 5);
    assert PySlice(tm, 6, 8) == PySlice(tm', 6, 8);
  }

  /** On eight ASCII digits, parse_date reads the year, month and day from [0:4], [4:6]
      and [6:8], and rejects them unless they form a valid date. */
  lemma ParseDateOfDigits(s: string)
    requires |s| == 8 && AllDigits(s)
    ensures var y, m, d := DigitsValue(s[..4]), DigitsValue(s[4..6]), DigitsValue(s[6..]);
      ParseDate(s) == if IsValidDate(y, m, d) then Ok(DateValue(Date(y, m, d))) else Err(ValueError)
  {
    var year, month, day := s[..4], s[4..6], s[6..];
    assert s[0..4] == year && s[6..8] == day;
    assert AllDigits(year) && AllDigits(month) && AllDigits(day) by {
      forall i | 0 <= i < 4 ensures IsDigit(year[i]) { assert year[i] == s[i]; }
      forall i | 0 <= i < 2 ensures IsDigit(month[i]) && IsDigit(day[i]) {
        assert month[i] == s[4 + i] && day[i] == s[6 + i];
      }
    }
    PyIntOfDigits(year);
    PyIntOfDigits(month);
    PyIntOfDigits(day);
    assert ParseDate(s) == ParseYmd(s);
  }

  /** On eight ASCII digits, parse_date and strptime('%Y%m%d') agree. */
  lemma ParseDateAgreesWithStrptime(s: string)
    requires |s| == 8 && AllDigits(s)
    ensures ParseDate(s).Ok? <==> StrptimeYmd(s).Ok?
    ensures ParseDate(s).Ok? ==> ParseDate(s) == Ok(DateValue(StrptimeYmd(s).value))
  {
    ParseDateOfDigits(s);
    StrptimeOfDigits(s);
  }

  /** Formatting a valid date as YYYYMMDD and parsing it gives the date back. */
  lemma ParseDateRoundTrip(d: Date)
    requires IsValidDate(d.year, d.month, d.day)
    ensures ParseDate(FormatYmd(d)) == Ok(DateValue(d))
  {
    ParseDateAgreesWithStrptime(FormatYmd(d));
    StrptimeRoundTrip(d);
  }

  /** `HH:MM:SS`, zero padded. */
  function FormatHms(hour: nat, minute: nat, second: nat): (s: string)
    requires IsValidTime(hour, minute, second)
    ensures |s| == 8 && ' ' !in s
  {
    var s := ZeroPad(hour, 2) + ":" + ZeroPad(minute, 2) + ":" + ZeroPad(second, 2);
    assert forall i :: 0 <= i < |s| ==> s[i] == ':' || IsDigit(s[i]);
    s
  }

  /** Formatting a valid timestamp as `YYYYMMDD`, one or more spaces and `HH:MM:SS`
      (the bar format uses two) and parsing it gives the timestamp back. */
  lemma ParseDateTimeRoundTrip(d: Date, hour: nat, minute: nat, second: nat, gap: nat)
    requires IsValidDate(d.year, d.month, d.day) && IsValidTime(hour, minute, second) && gap > 0
    ensures ParseDate(FormatYmd(d) + Spaces(gap) + FormatHms(hour, minute, second))
         == Ok(DateTimeValue(d, hour, minute, second))
  {
    var dt, tm := FormatYmd(d), FormatHms(hour, minute, second);
    assert ' ' !in dt by {
      assert forall i :: 0 <= i < |dt| ==> IsDigit(dt[i]);
    }
    TwoWords(dt, gap, tm);
    FormattedPiecesParse(d, hour, minute, second);
  }

  /** The date piece and the time piece of a formatted timestamp read back as written. */
  lemma FormattedPiecesParse(d: Date, hour: nat, minute: nat, second: nat)
    requires IsValidDate(d.year, d.month, d.day) && IsValidTime(hour, minute, second)
    ensures ParseDateTime(FormatYmd(d), FormatHms(hour, minute, second)) == Ok(DateTimeValue(d, hour, minute, second))
  {
    FormattedDateFields(d);
    FormattedTimeFields(hour, minute, second);
  }

  lemma FormattedDateFields(d: Date)
    requires IsValidDate(d.year, d.month, d.day)
    ensures var dt := FormatYmd(d);
      && PyInt(PySlice(dt, 0, 4)) == Some(d.year)
      && PyInt(PySlice(dt, 4, 6)) == Some(d.month)
      && PyInt(PySlice(dt, 6, 8)) == Some(d.day)
  {
    var dt := FormatYmd(d);
    FormatYmdFields(d);
    assert dt[0..4] == dt[..4] && dt[6..8] == dt[6..];
    PyIntOfDigitSlice(dt, 0, 4);
    assert PyInt(PySlice(dt, 0, 4)) == Some(d.year);
    PyIntOfDigitSlice(dt, 4, 6);
    assert PyInt(PySlice(dt, 4, 6)) == Some(d.month);
    PyIntOfDigitSlice(dt, 6, 8);
    assert PyInt(PySlice(dt, 6, 8)) == Some(d.day);
  }

  /** The date piece of the two-piece form, when it is eight digits: its slices [0:4],
      [4:6] and [6:8] convert to the numbers they write. */
  lemma DateFieldsOfDigits(dt: string)
    requires |dt| == 8 && AllDigits(dt)
    ensures AllDigits(dt[..4]) && AllDigits(dt[4..6]) && AllDigits(dt[6..])
    ensures PyInt(PySlice(dt, 0, 4)) == Some(DigitsValue(dt[..4]))
    ensures PyInt(PySlice(dt, 4, 6)) == Some(DigitsValue(dt[4..6]))
    ensures PyInt(PySlice(dt, 6, 8)) == Some(DigitsValue(dt[6..]))
  {
    DigitsInSlice(dt, 0, 4);
    DigitsInSlice(dt, 4, 6);
    DigitsInSlice(dt, 6, 8);
    assert PySlice(dt, 0, 4) == dt[..4];
    assert PySlice(dt, 4, 6) == dt[4..6];
    assert PySlice(dt, 6, 8) == dt[6..];
    PyIntOfDigits(dt[..4]);
    PyIntOfDigits(dt[4..6]);
    PyIntOfDigits(dt[6..]);
  }

  /** A time piece of eight characters with digits in [0:2], [3:5] and [6:8], whatever
      stands at positions 2 and 5. */
  predicate TimeDigits(tm: string)
  {
    |tm| == 8 && AllDigits(tm[..2]) && AllDigits(tm[3..5]) && AllDigits(tm[6..])
  }

  /** The time piece's slices [0:2], [3:5] and [6:8] convert to the numbers they
      write. */
  lemma TimeFieldsOfDigits(tm: string)
    requires TimeDigits(tm)
    ensures PyInt(PySlice(tm, 0, 2)) == Some(DigitsValue(tm[..2]))
    ensures PyInt(PySlice(tm, 3, 5)) == Some(DigitsValue(tm[3..5]))
    ensures PyInt(PySlice(tm, 6, 8)) == Some(DigitsValue(tm[6..]))
  {
    assert PySlice(tm, 0, 2) == tm[..2];
    assert PySlice(tm, 3, 5) == tm[3..5];
    assert PySlice(tm, 6, 8) == tm[6..];
    PyIntOfDigits(tm[..2]);
    PyIntOfDigits(tm[3..5]);
    PyIntOfDigits(tm[6..]);
  }

  /** The two-piece branch on digit fields: the timestamp of the six slices when they
      form a valid date and time of day, ValueError otherwise (an hour of 24, a 31st of
      April, a 29th of February outside a leap year). */
  lemma ParseDateTimeOfDigits(dt: string, tm: string)
    requires |dt| == 8 && AllDigits(dt) && TimeDigits(tm)
    ensures var y, m, d := DigitsValue(dt[..4]), DigitsValue(dt[4..6]), DigitsValue(dt[6..]);
      var h, mi, se := DigitsValue(tm[..2]), DigitsValue(tm[3..5]), DigitsValue(tm[6..]);
      ParseDateTime(dt, tm) == if IsValidDate(y, m, d) && IsValidTime(h, mi, se)
                               then Ok(DateTimeValue(Date(y, m, d), h, mi, se))
                               else Err(ValueError)
  {
    DateFieldsOfDigits(dt);
    TimeFieldsOfDigits(tm);
  }

  /** parse_date on a date piece, one or more spaces and a time piece: the timestamp of
      the six slices when they are valid, ValueError otherwise. */
  lemma ParseDateOfDateAndTime(dt: string, gap: nat, tm: string)
    requires |dt| == 8 && AllDigits(dt) && TimeDigits(tm) && gap > 0
    requires tm[2] != ' ' && tm[5] != ' '
    ensures var y, m, d := DigitsValue(dt[..4]), DigitsValue(dt[4..6]), DigitsValue(dt[6..]);
      var h, mi, se := DigitsValue(tm[..2]), DigitsValue(tm[3..5]), DigitsValue(tm[6..]);
      ParseDate(dt + Spaces(gap) + tm) == if IsValidDate(y, m, d) && IsValidTime(h, mi, se)
                                          then Ok(DateTimeValue(Date(y, m, d), h, mi, se))
                                          else Err(ValueError)
  {
    assert ' ' !in dt by {
      forall i | 0 <= i < |dt| ensures dt[i] != ' ' { assert IsDigit(dt[i]); }
    }
    assert ' ' !in tm by {
      forall i | 0 <= i < |tm| ensures tm[i] != ' ' {
        if i < 2 { assert tm[..2][i] == tm[i]; }
        else if 3 <= i < 5 { assert tm[3..5][i - 3] == tm[i]; }
        else if 6 <= i { assert tm[6..][i - 6] == tm[i]; }
      }
    }
    TwoWords(dt, gap, tm);
    ParseDateTimeOfDigits(dt, tm);
  }

  /** An hour of 24 is rejected: "20130101 24:00:00" raises ValueError. */
  lemma ParseDateExampleBadHour(bad: string)
    requires bad == "20130101 24:00:00"
    ensures ParseDate(bad) == Err(ValueError)
  {
    var dt, tm := "20130101", "24:00:00";
    assert bad == dt + Spaces(1) + tm;
    assert AllDigits(dt[..4]) && AllDigits(dt[4..6]) && AllDigits(dt[6..]);
    assert DigitsValue(tm[..2]) == 24 by { DigitsValueOfTwo(tm[..2]); }
    ParseDateOfDateAndTime(dt, 1, tm);
  }

  /** A non-empty slice of ASCII digits converts to the number it writes. */
  lemma PyIntOfDigitSlice(s: string, i: nat, j: nat)
    requires i < j <= |s| && AllDigits(s)
    ensures AllDigits(s[i..j]) && PyInt(PySlice(s, i, j)) == Some(DigitsValue(s[i..j]))
  {
    assert PySlice(s, i, j) == s[i..j];
    PyIntOfDigits(s[i..j]);
  }

  lemma FormattedTimeFields(hour: nat, minute: nat, second: nat)
    requires IsValidTime(hour, minute, second)
    ensures var tm := FormatHms(hour, minute, second);
      && PyInt(PySlice(tm, 0, 2)) == Some(hour)
      && PyInt(PySlice(tm, 3, 5)) == Some(minute)
      && PyInt(PySlice(tm, 6, 8)) == Some(second)
  {
    var tm := FormatHms(hour, minute, second);
    assert PySlice(tm, 0, 2) == ZeroPad(hour, 2);
    assert PySlice(tm, 3, 5) == ZeroPad(minute, 2);
    assert PySlice(tm, 6, 8) == ZeroPad(second, 2);
    ZeroPadValue(hour, 2);
    ZeroPadValue(minute, 2);
    ZeroPadValue(second, 2);
    PyIntOfDigits(ZeroPad(hour, 2));
    PyIntOfDigits(ZeroPad(minute, 2));
    PyIntOfDigits(ZeroPad(second, 2));
  }

  // ---------------------------------------------------------------------------
  // HistoricalDataPoint

  /** The fields of a historicalData event that the bar record reads. */
  datatype BarMessage = BarMessage(
    date: string, open: real, high: real, low: real, close: real,
    volume: int, count: int, wap: real, hasGaps: bool)

  /** HistoricalDataPoint: built once, read through its properties. */
  datatype HistoricalDataPoint = HistoricalDataPoint(
    date: Timestamp, open: real, high: real, low: real, close: real,
    volume: int, count: int, wap: real, hasGaps: bool)

  /** The constructor: the date is parsed, every other field copied unchanged; a date
      parse_date rejects makes the construction raise the same error. */
  function NewHistoricalDataPoint(msg: BarMessage): (r: Result<HistoricalDataPoint>)
    ensures r.Ok? <==> ParseDate(msg.date).Ok?
    ensures r.Err? ==> r.error == ParseDate(msg.date).error
    ensures r.Ok? ==> r.value.date == ParseDate(msg.date).value
    ensures r.Ok? ==> (r.value.open == msg.open && r.value.high == msg.high && r.value.low == msg.low
                       && r.value.close == msg.close && r.value.volume == msg.volume
                       && r.value.count == msg.count && r.value.wap == msg.wap && r.value.hasGaps == msg.hasGaps)
  {
    var date :- ParseDate(msg.date);
    Ok(HistoricalDataPoint(date, msg.open, msg.high, msg.low, msg.close, msg.volume, msg.count, msg.wap, msg.hasGaps))
  }

  /** Example: month 13 does not exist, so the parse raises. */
  lemma ParseDateExampleBadMonth(bad: string)
    requires bad == "20131301"
    ensures ParseDate(bad) == Err(ValueError)
  {
    assert bad[4..6] == "13";
    PyIntOfDigits("13");
    DigitsValueOfTwo("13");
  }
}
