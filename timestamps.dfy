/** The two fixed-width timestamp patterns of the mapping generator and what Joda's
    `DateTimeFormat.forPattern(p).parseMillis(s)` reads out of a value of the right length.
    The instant itself (epoch arithmetic in the default time zone) is represented by the
    date-time fields the digits spell. */
module Timestamps {
  import opened Wrappers
  import opened Numbers

  const FullDateFormat: string := "yyyyMMddHHmmssSSS"
  const SecTimeFormat: string := "yyyyMMddHHmmss"

  /** A local date-time, field by field, down to the millisecond. */
  datatype Stamp = Stamp(year: nat, month: nat, day: nat, hour: nat, minute: nat, second: nat, millis: nat)

  predicate LeapYear(y: nat)
  {
    y % 4 == 0 && (y % 100 != 0 || y % 400 == 0)
  }

  function DaysInMonth(y: nat, m: nat): nat
    requires 1 <= m <= 12
  {
    if m == 2 then (if LeapYear(y) then 29 else 28)
    else if m == 4 || m == 6 || m == 9 || m == 11 then 30
    else 31
  }

  /** The fields Joda's ISO chronology accepts. */
  predicate ValidStamp(st: Stamp)
  {
    && st.year <= 9999
    && 1 <= st.month <= 12
    && 1 <= st.day <= DaysInMonth(st.year, st.month)
    && st.hour <= 23 && st.minute <= 59 && st.second <= 59
    && st.millis <= 999
  }

  /** `parseMillis` with `yyyyMMddHHmmssSSS` (withMillis) or `yyyyMMddHHmmss` on a value of
      exactly that pattern's length. None stands for the IllegalArgumentException Joda throws
      for a non-digit or a field out of range. */
  function ParseStamp(s: string, withMillis: bool): (r: Option<Stamp>)
    requires |s| == if withMillis then |FullDateFormat| else |SecTimeFormat|
    ensures r.Some? ==> AllDigits(s) && ValidStamp(r.value)
    ensures r.Some? && !withMillis ==> r.value.millis == 0
  {
    if !AllDigits(s) then None
    else
      var st := Stamp(DigitsValue(s[0..4]), DigitsValue(s[4..6]), DigitsValue(s[6..8]),
                      DigitsValue(s[8..10]), DigitsValue(s[10..12]), DigitsValue(s[12..14]),
                      if withMillis then DigitsValue(s[14..17]) else 0);
      if ValidStamp(st) then Some(st) else None
  }

  /** Joda's `print` with the same pattern: every field zero-padded to its width. */
  function FormatStamp(st: Stamp, withMillis: bool): (s: string)
    ensures |s| == if withMillis then |FullDateFormat| else |SecTimeFormat|
  {
    Padded(st.year, 4) + Padded(st.month, 2) + Padded(st.day, 2) + Padded(st.hour, 2)
      + Padded(st.minute, 2) + Padded(st.second, 2) + (if withMillis then Padded(st.millis, 3) else "")
  }

  lemma AllDigitsConcat(a: string, b: string)
    requires AllDigits(a) && AllDigits(b)
    ensures AllDigits(a + b)
  {
    assert forall i :: 0 <= i < |a + b| ==> (a + b)[i] == if i < |a| then a[i] else b[i - |a|];
  }

  /** A printed date-time is all digits, and each field sits at its pattern's offsets. */
  lemma FormatLayout(st: Stamp, withMillis: bool)
    ensures var s := FormatStamp(st, withMillis);
            && AllDigits(s)
            && s[0..4] == Padded(st.year, 4) && s[4..6] == Padded(st.month, 2) && s[6..8] == Padded(st.day, 2)
            && s[8..10] == Padded(st.hour, 2) && s[10..12] == Padded(st.minute, 2) && s[12..14] == Padded(st.second, 2)
            && (withMillis ==> s[14..17] == Padded(st.millis, 3))
  {
    var y, mo, d, h, mi, se := Padded(st.year, 4), Padded(st.month, 2), Padded(st.day, 2),
                               Padded(st.hour, 2), Padded(st.minute, 2), Padded(st.second, 2);
    var ms := if withMillis then Padded(st.millis, 3) else "";
    AllDigitsConcat(y, mo);
    AllDigitsConcat(y + mo, d);
    AllDigitsConcat(y + mo + d, h);
    AllDigitsConcat(y + mo + d + h, mi);
    AllDigitsConcat(y + mo + d + h + mi, se);
    AllDigitsConcat(y + mo + d + h + mi + se, ms);
    var s := FormatStamp(st, withMillis);
    assert s == y + mo + d + h + mi + se + ms;
    assert s[0..4] == y;
    assert s[4..6] == mo;
    assert s[6..8] == d;
    assert s[8..10] == h;
    assert s[10..12] == mi;
    assert s[12..14] == se;
    assert withMillis ==> s[14..17] == ms;
  }

  /** Every valid date-time printed with a pattern is parsed back to itself, so both patterns
      read exactly the timestamps they can write (the seconds pattern those without millis). */
  lemma FormatParse(st: Stamp, withMillis: bool)
    requires ValidStamp(st)
    requires !withMillis ==> st.millis == 0
    ensures ParseStamp(FormatStamp(st, withMillis), withMillis) == Some(st)
  {
    FormatLayout(st, withMillis);
    assert Pow10(2) == 100 && Pow10(3) == 1000 && Pow10(4) == 10000;
    PaddedValue(st.year, 4);
    PaddedValue(st.month, 2);
    PaddedValue(st.day, 2);
    PaddedValue(st.hour, 2);
    PaddedValue(st.minute, 2);
    PaddedValue(st.second, 2);
    if withMillis {
      PaddedValue(st.millis, 3);
    }
  }

  /** Conversely, every value a pattern accepts is the printing of the date-time it reads, so a
      value is read in only one way and no two values give the same date-time. */
  lemma ParseFormat(s: string, withMillis: bool, st: Stamp)
    requires |s| == if withMillis then |FullDateFormat| else |SecTimeFormat|
    requires ParseStamp(s, withMillis) == Some(st)
    ensures FormatStamp(st, withMillis) == s
  {
    var y, mo, d, h, mi, se := s[0..4], s[4..6], s[6..8], s[8..10], s[10..12], s[12..14];
    var ms := if withMillis then s[14..17] else "";
    assert AllDigits(s);
    assert st == Stamp(DigitsValue(y), DigitsValue(mo), DigitsValue(d), DigitsValue(h), DigitsValue(mi),
                       DigitsValue(se), if withMillis then DigitsValue(ms) else 0);
    DigitsPadded(y);
    DigitsPadded(mo);
    DigitsPadded(d);
    DigitsPadded(h);
    DigitsPadded(mi);
    DigitsPadded(se);
    if withMillis {
      DigitsPadded(ms);
    }
    FieldsJoin(s, withMillis);
  }

  /** A value of either pattern's length is its fields laid end to end. */
  lemma FieldsJoin(s: string, withMillis: bool)
    requires |s| == if withMillis then |FullDateFormat| else |SecTimeFormat|
    ensures s == s[0..4] + s[4..6] + s[6..8] + s[8..10] + s[10..12] + s[12..14] + (if withMillis then s[14..17] else "")
  {
    if withMillis {
      assert s == s[0..14] + s[14..17];
    }
    assert s[0..14] == s[0..4] + s[4..6] + s[6..8] + s[8..10] + s[10..12] + s[12..14];
  }

  /** A value of the pattern's length is refused by the model exactly when it is not the
      printing of any valid date-time, with zero milliseconds for the seconds pattern. Joda
      also refuses a local time in a daylight-saving gap of the default zone; the model, which
      leaves zones out, accepts it. */
  lemma ParseStampFails(s: string, withMillis: bool)
    requires |s| == if withMillis then |FullDateFormat| else |SecTimeFormat|
    ensures ParseStamp(s, withMillis).None? <==>
              forall st :: ValidStamp(st) && (!withMillis ==> st.millis == 0) ==> FormatStamp(st, withMillis) != s
  {
    if ParseStamp(s, withMillis).Some? {
      ParseFormat(s, withMillis, ParseStamp(s, withMillis).value);
    } else {
      forall st | ValidStamp(st) && (!withMillis ==> st.millis == 0)
        ensures FormatStamp(st, withMillis) != s
      {
        FormatParse(st, withMillis);
      }
    }
  }
}
