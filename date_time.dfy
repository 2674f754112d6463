/**
 * Time-of-day conversions of the storefront (src/services/dateTimeHandler.js):
 * a count of seconds rendered as a 24-hour `HH:MM` or a 12-hour `hh:MM AM/PM`
 * string, and an `H:M` string read back as seconds.
 *
 * Inputs are non-negative integers; `None` stands for the `null`/`NaN`
 * inputs the source tests for. A result of `None` from `TimeToSeconds`
 * stands for `NaN`.
 */
module DateTime {
  import opened Common
  import opened Strings

  const SecondsPerHour := 3600
  const SecondsPerMinute := 60
  const SecondsPerDay := 86400

  /** The hour field of `secondsToTime24`: whole hours, not wrapped at one day. */
  function HourField(s: nat): nat {
    s / SecondsPerHour
  }

  /** The minute field of `secondsToTime24`: whole minutes left after the whole hours. */
  function MinuteField(s: nat): nat {
    (s - HourField(s) * SecondsPerHour) / SecondsPerMinute
  }

  /** `secondsToTime24`: hours and minutes, each padded to two digits; leftover seconds are dropped. */
  function SecondsToTime24(time: Option<nat>): string {
    match time
    case None => "00:00"
    case Some(s) => Pad2(HourField(s)) + ":" + Pad2(MinuteField(s))
  }

  /** Hour of a 12-hour clock for an hour count: `hours24 % 12 || 12`. */
  function Hour12(hours24: nat): (h: nat)
    ensures 1 <= h <= 12
    ensures h % 12 == hours24 % 12
  {
    if hours24 % 12 == 0 then 12 else hours24 % 12
  }

  /** `PM` from hour 12 on (also for counts past one day, which the source does not wrap). */
  function Period(hours24: nat): string {
    if hours24 >= 12 then "PM" else "AM"
  }

  /** `secondsToTime12`. */
  function SecondsToTime12(time: Option<nat>): string {
    match time
    case None => "12:00 AM"
    case Some(s) =>
      var totalMinutes := s / SecondsPerMinute;
      var hours24 := totalMinutes / 60;
      var minutes := totalMinutes % 60;
      Pad2(Hour12(hours24)) + ":" + Pad2(minutes) + " " + Period(hours24)
  }

  /** `Number(segment)` on a segment of digits (`Number("")` is 0); `None` is `NaN`. */
  function ToNumber(segment: string): (r: Option<nat>)
    ensures r.Some? <==> AllDigits(segment)
  {
    if AllDigits(segment) then Some(DigitsValue(segment)) else None
  }

  /** Seconds of a clock reading: `hours * 3600 + minutes * 60`. */
  function ClockSeconds(hours: nat, minutes: nat): nat {
    hours * SecondsPerHour + minutes * SecondsPerMinute
  }

  /** `timeToSeconds`: empty or absent input is 0; otherwise the first two `:`-separated fields are hours and minutes. */
  function TimeToSeconds(time: Option<string>): Option<nat> {
    if time == None || time == Some("") then Some(0)
    else
      var parts := Split(time.value, ':');
      var hours := ToNumber(parts[0]);
      var minutes := if |parts| >= 2 then ToNumber(parts[1]) else None;
      if hours.Some? && minutes.Some? then Some(ClockSeconds(hours.value, minutes.value))
      else None
  }

  /** Writing a count of seconds as decimal fields: whole hours, then minutes within the hour. */
  lemma ClockFields(s: nat)
    ensures s / 3600 * 3600 + (s % 3600) / 60 * 60 == s - s % 60
    ensures (s % 3600) / 60 < 60
    ensures (s / 60) / 60 == s / 3600 && (s / 60) % 60 == (s % 3600) / 60
  {
    var h, r := s / 3600, s % 3600;
    var m, sec := r / 60, r % 60;
    assert s == h * 3600 + m * 60 + sec;
    assert s == (h * 60 + m) * 60 + sec;
    assert s / 60 == h * 60 + m && s % 60 == sec;
  }

  /** Hours and minutes written as seconds are recovered as the two fields. */
  lemma FieldsOfClock(s: nat, h: nat, m: nat)
    requires m < 60 && s == ClockSeconds(h, m)
    ensures HourField(s) == h && MinuteField(s) == m && (s % 3600) / 60 == m
  {
    assert 0 <= m * 60 < 3600;
    assert s / 3600 == h && s % 3600 == m * 60;
    assert s - h * 3600 == m * 60;
  }

  /** The fields of `secondsToTime24` are the hour count and the minute within the hour. */
  lemma FieldsOfSeconds(s: nat)
    ensures HourField(s) == s / 3600 && MinuteField(s) == (s % 3600) / 60 < 60
  {
    assert s - s / 3600 * 3600 == s % 3600;
  }

  /** The 24-hour string is determined by its two fields. */
  lemma Time24OfFields(s: nat, h: nat, m: nat)
    requires HourField(s) == h && MinuteField(s) == m
    ensures SecondsToTime24(Some(s)) == Pad2(h) + ":" + Pad2(m)
  {
  }

  /** Hours and minutes (below 60) written as seconds come back as the same two fields. */
  lemma Time24OfClock(s: nat, h: nat, m: nat)
    requires m < 60 && s == ClockSeconds(h, m)
    ensures SecondsToTime24(Some(s)) == Pad2(h) + ":" + Pad2(m)
  {
    FieldsOfClock(s, h, m);
    Time24OfFields(s, h, m);
  }

  /** The 24-hour string is the hour count and the minute within the hour, zero-padded. */
  lemma Time24Fields(s: nat)
    ensures SecondsToTime24(Some(s)) == Pad2(s / 3600) + ":" + Pad2((s % 3600) / 60)
    ensures (s % 3600) / 60 < 60
    ensures s < SecondsPerDay ==> s / 3600 < 24 && |SecondsToTime24(Some(s))| == 5
  {
    FieldsOfSeconds(s);
    Time24OfFields(s, s / 3600, (s % 3600) / 60);
  }

  /** Within one day the 24-hour string is exactly `HH:MM` with HH in 00..23 and MM in 00..59. */
  lemma Time24WithinDay(s: nat)
    requires s < SecondsPerDay
    ensures var r := SecondsToTime24(Some(s));
      |r| == 5 && r[2] == ':' && AllDigits(r[..2]) && AllDigits(r[3..]) &&
      DigitsValue(r[..2]) == s / 3600 < 24 &&
      DigitsValue(r[3..]) == (s % 3600) / 60 < 60
  {
    Time24Fields(s);
    var r := SecondsToTime24(Some(s));
    var hh, mm := Pad2(s / 3600), Pad2((s % 3600) / 60);
    assert r[..2] == hh && r[3..] == mm;
    Pad2Value(s / 3600);
    Pad2Value((s % 3600) / 60);
  }

  /** Leftover seconds never change the output: it depends only on the whole minutes. */
  lemma {:induction false} Time24IgnoresSeconds(s1: nat, s2: nat)
    requires s1 / 60 == s2 / 60
    ensures SecondsToTime24(Some(s1)) == SecondsToTime24(Some(s2))
  {
    ClockFields(s1);
    ClockFields(s2);
    assert s1 / 3600 == s2 / 3600 && (s1 % 3600) / 60 == (s2 % 3600) / 60;
    Time24Fields(s1);
    Time24Fields(s2);
  }

  /** The 12-hour string is built from the same two fields as the 24-hour one. */
  lemma Time12Shape(s: nat)
    ensures var h := HourField(s);
      SecondsToTime12(Some(s)) == Pad2(Hour12(h)) + ":" + Pad2(MinuteField(s)) + " " + Period(h)
  {
    ClockFields(s);
    FieldsOfSeconds(s);
  }

  /** The 12-hour string: hour in 1..12 (0 written as 12), and `PM` exactly from hour 12 on. */
  lemma Time12Fields(s: nat)
    ensures var r := SecondsToTime12(Some(s));
      |r| == 8 && r[2] == ':' && r[5] == ' ' &&
      1 <= DigitsValue(r[..2]) <= 12 &&
      (r[6..] == "PM" <==> s / 3600 >= 12) && (r[6..] == "AM" <==> s / 3600 < 12)
  {
    var h, m := HourField(s), MinuteField(s);
    FieldsOfSeconds(s);
    Time12Shape(s);
    var hh := Pad2(Hour12(h));
    FieldSlices(hh, Pad2(m), " " + Period(h));
    Pad2Value(Hour12(h));
  }

  /** Where the fields sit in `HH:MM` followed by anything. */
  lemma FieldSlices(hh: string, mm: string, rest: string)
    requires |hh| == 2 && |mm| == 2
    ensures var r := hh + ":" + mm + rest;
      |r| == 5 + |rest| && r[..2] == hh && r[2] == ':' && r[3..5] == mm && r[5..] == rest
  {
  }

  /** For hour counts below 100 both renderings carry the same minute digits at the same place. */
  lemma SameMinuteField(s: nat)
    requires s < 100 * 3600
    ensures |SecondsToTime24(Some(s))| == 5 && |SecondsToTime12(Some(s))| == 8
    ensures SecondsToTime24(Some(s))[3..5] == SecondsToTime12(Some(s))[3..5] == Pad2((s % 3600) / 60)
  {
    var h, m := HourField(s), MinuteField(s);
    FieldsOfSeconds(s);
    assert h < 100;
    Time24OfFields(s, h, m);
    Time12Shape(s);
    FieldSlices(Pad2(h), Pad2(m), "");
    assert Pad2(h) + ":" + Pad2(m) + "" == Pad2(h) + ":" + Pad2(m);
    FieldSlices(Pad2(Hour12(h)), Pad2(m), " " + Period(h));
    assert Pad2(Hour12(h)) + ":" + Pad2(m) + (" " + Period(h)) == Pad2(Hour12(h)) + ":" + Pad2(m) + " " + Period(h);
  }

  /** `timeToSeconds` on `H:M` with digit fields, whatever follows a second `:`, is `H*3600 + M*60`. */
  lemma {:induction false} TimeToSecondsFields(hours: string, minutes: string, more: seq<string>)
    requires AllDigits(hours) && AllDigits(minutes)
    requires forall i :: 0 <= i < |more| ==> ':' !in more[i]
    ensures TimeToSeconds(Some(Join([hours, minutes] + more, ':'))) ==
      Some(ClockSeconds(DigitsValue(hours), DigitsValue(minutes)))
  {
    var parts := [hours, minutes] + more;
    assert forall i :: 0 <= i < |parts| ==> ':' !in parts[i] by {
      forall i | 0 <= i < |parts| ensures ':' !in parts[i] {
        if i >= 2 { assert parts[i] == more[i - 2]; }
        else { assert AllDigits(parts[i]); }
      }
    }
    SplitJoin(parts, ':');
    assert Join(parts, ':') == hours + [':'] + Join(parts[1..], ':');
  }

  /** Round trip, seconds first: reading back the 24-hour string gives the seconds rounded down to a whole minute. */
  lemma RoundTripFromSeconds(s: nat)
    ensures TimeToSeconds(Some(SecondsToTime24(Some(s)))) == Some(s - s % 60)
  {
    ReadBackClock(HourField(s), MinuteField(s));
    SecondsOfFields(s);
  }

  /** The two fields of `secondsToTime24` stand for the seconds rounded down to a whole minute. */
  lemma SecondsOfFields(s: nat)
    ensures ClockSeconds(HourField(s), MinuteField(s)) == s - s % 60
  {
    ClockFields(s);
    FieldsOfSeconds(s);
  }

  /** The padded hour and minute fields read back as the seconds they stand for. */
  lemma ReadBackClock(h: nat, m: nat)
    ensures TimeToSeconds(Some(Pad2(h) + ":" + Pad2(m))) == Some(ClockSeconds(h, m))
  {
    TimeToSecondsPair(Pad2(h), Pad2(m));
    Pad2Value(h);
    Pad2Value(m);
  }

  /** `timeToSeconds` on a plain `H:M`. */
  lemma TimeToSecondsPair(hh: string, mm: string)
    requires AllDigits(hh) && AllDigits(mm)
    ensures TimeToSeconds(Some(hh + ":" + mm)) == Some(ClockSeconds(DigitsValue(hh), DigitsValue(mm)))
  {
    TimeToSecondsFields(hh, mm, []);
    assert [hh, mm] + [] == [hh, mm];
    assert Join([hh, mm], ':') == hh + ":" + mm;
  }

  /** Round trip, string first: an `HH:MM` with two-digit fields and MM at most 59 is written back unchanged. */
  lemma RoundTripFromString(hh: string, mm: string)
    requires |hh| == 2 && |mm| == 2 && AllDigits(hh) && AllDigits(mm)
    requires DigitsValue(mm) <= 59
    ensures SecondsToTime24(TimeToSeconds(Some(hh + ":" + mm))) == hh + ":" + mm
  {
    TimeToSecondsPair(hh, mm);
    WriteTwoDigitFields(hh, mm);
  }

  /** The seconds denoted by two-digit hour and minute fields are written as those fields. */
  lemma WriteTwoDigitFields(hh: string, mm: string)
    requires |hh| == 2 && |mm| == 2 && AllDigits(hh) && AllDigits(mm)
    requires DigitsValue(mm) <= 59
    ensures SecondsToTime24(Some(ClockSeconds(DigitsValue(hh), DigitsValue(mm)))) == hh + ":" + mm
  {
    WriteFields(ClockSeconds(DigitsValue(hh), DigitsValue(mm)), hh, mm);
  }

  /** Seconds made of two-digit hour and minute fields are written as those fields. */
  lemma WriteFields(s: nat, hh: string, mm: string)
    requires |hh| == 2 && |mm| == 2 && AllDigits(hh) && AllDigits(mm)
    requires DigitsValue(mm) <= 59 && s == ClockSeconds(DigitsValue(hh), DigitsValue(mm))
    ensures SecondsToTime24(Some(s)) == hh + ":" + mm
  {
    Time24OfClock(s, DigitsValue(hh), DigitsValue(mm));
    Pad2OfTwoDigits(hh);
    Pad2OfTwoDigits(mm);
  }

  /** Null or NaN inputs give the default strings. */
  lemma NullDefaults()
    ensures SecondsToTime24(None) == "00:00" && SecondsToTime12(None) == "12:00 AM"
  {
  }

  /** Empty or absent strings read as 0 seconds. */
  lemma EmptyTimeIsZero()
    ensures TimeToSeconds(None) == Some(0) && TimeToSeconds(Some("")) == Some(0)
  {
  }

  /** A lone field with no `:` has no minutes, so `timeToSeconds` yields NaN. */
  lemma MissingMinutesIsNaN(hours: string)
    requires hours != "" && ':' !in hours
    ensures TimeToSeconds(Some(hours)) == None
  {
    SplitPrefix(hours, "", ':');
    assert hours + "" == hours;
  }
}
