/** The working-hours rules of the human-handoff module: a schedule maps day
    names to a start and an end time written `H:mm` or `HH:mm`, and a
    handoff is offered in working time only. The source compares times as
    strings; that comparison is kept beside the intended one by minutes,
    which the validation uses.
    The clock and the time-zone conversion are outside the model: the
    local day of the week, hour and minute are parameters. */
module WorkingHours {
  import opened Text

  /** The hours of one working day. */
  datatype DayHours = DayHours(start: string, end: string)

  /** Day name (`monday` … `sunday`) to that day's hours, when configured. */
  type WorkingDaysConfig = map<string, DayHours>

  /** Day names by `Date.getDay()` index, Sunday first. */
  const DayMapping: seq<string> :=
    ["sunday", "monday", "tuesday", "wednesday", "thursday", "friday", "saturday"]

  const NoWorkingDayError: string := "At least one working day must be selected"

  predicate IsDigit(c: char) {
    '0' <= c <= '9'
  }

  function DigitValue(c: char): nat
    requires IsDigit(c)
  {
    c as int - '0' as int
  }

  /** `/^([0-1]?[0-9]|2[0-3]):[0-5][0-9]$/`: an hour of one digit, of two
      digits up to 19, or 20 to 23, a colon, and two-digit minutes up to 59. */
  predicate IsTimeFormat(t: string) {
    (|t| == 4 && IsDigit(t[0]) && t[1] == ':' && '0' <= t[2] <= '5' && IsDigit(t[3]))
    || (|t| == 5
        && (('0' <= t[0] <= '1' && IsDigit(t[1])) || (t[0] == '2' && '0' <= t[1] <= '3'))
        && t[2] == ':' && '0' <= t[3] <= '5' && IsDigit(t[4]))
  }

  /** Minutes after midnight of a well-formed time. */
  function Minutes(t: string): (m: nat)
    requires IsTimeFormat(t)
    ensures m < 24 * 60
  {
    if |t| == 4 then DigitValue(t[0]) * 60 + DigitValue(t[2]) * 10 + DigitValue(t[3])
    else (DigitValue(t[0]) * 10 + DigitValue(t[1])) * 60 + DigitValue(t[3]) * 10 + DigitValue(t[4])
  }

  /** The errors line 172 of the source reports for one listed day, as
      written: hours missing, a malformed start, a malformed end, and a start
      that is not before the end when the two are compared as strings. */
  function DayErrors(day: string, hours: WorkingDaysConfig): (r: seq<string>)
    ensures day !in hours ==> r == ["Working hours not configured for " + day]
    ensures day in hours ==>
      |r| == (if IsTimeFormat(hours[day].start) then 0 else 1) + (if IsTimeFormat(hours[day].end) then 0 else 1)
        + (if LexLe(hours[day].end, hours[day].start) then 1 else 0)
    ensures day in hours && LexLe(hours[day].end, hours[day].start) ==>
      r[|r| - 1] == "Start time must be before end time for " + day
  {
    if day !in hours then ["Working hours not configured for " + day]
    else
      var h := hours[day];
      (if IsTimeFormat(h.start) then [] else ["Invalid start time format for " + day + ": " + h.start])
      + (if IsTimeFormat(h.end) then [] else ["Invalid end time format for " + day + ": " + h.end])
      + (if LexLe(h.end, h.start) then ["Start time must be before end time for " + day] else [])
  }

  /** One day passes the check as written: hours present, both times
      well-formed and the start before the end as strings. */
  predicate DayValid(day: string, hours: WorkingDaysConfig) {
    day in hours && IsTimeFormat(hours[day].start) && IsTimeFormat(hours[day].end)
    && !LexLe(hours[day].end, hours[day].start)
  }

  lemma DayErrorsEmptyIff(day: string, hours: WorkingDaysConfig)
    ensures DayErrors(day, hours) == [] <==> DayValid(day, hours)
  {
  }

  /** A lexicographic comparison of two `HH:mm` times agrees with the order
      of the times themselves. */
  lemma PaddedTimesCompareAsMinutes(a: string, b: string)
    requires IsTimeFormat(a) && IsTimeFormat(b) && |a| == 5 && |b| == 5
    ensures LexLe(a, b) <==> Minutes(a) <= Minutes(b)
  {
    var a1, b1 := a[1..], b[1..];
    var a2, b2 := a1[1..], b1[1..];
    var a3, b3 := a2[1..], b2[1..];
    var a4, b4 := a3[1..], b3[1..];
    assert LexLe(a4, b4) <==> a[4] <= b[4] by {
      assert a4[1..] == [] && a4[0] == a[4] && b4[0] == b[4];
    }
    assert LexLe(a3, b3) <==> a[3] < b[3] || (a[3] == b[3] && a[4] <= b[4]);
    assert LexLe(a2, b2) <==> LexLe(a3, b3);
    assert LexLe(a1, b1) <==> a[1] < b[1] || (a[1] == b[1] && LexLe(a3, b3));
    assert LexLe(a, b) <==> a[0] < b[0] || (a[0] == b[0] && LexLe(a1, b1));
  }

  /** Finding, as written: `9:00` is an accepted start and comes before
      `17:00`, yet the string comparison rejects the day. */
  lemma SingleDigitStartRejected()
    ensures var hours := map["monday" := DayHours("9:00", "17:00")];
      IsTimeFormat("9:00") && IsTimeFormat("17:00") && Minutes("9:00") < Minutes("17:00")
      && DayErrors("monday", hours) == ["Start time must be before end time for monday"]
  {
    var hours := map["monday" := DayHours("9:00", "17:00")];
    assert LexLe("17:00", "9:00");
    assert DayErrors("monday", hours) == ["Start time must be before end time for " + "monday"];
    assert "Start time must be before end time for " + "monday" == "Start time must be before end time for monday";
  }

  /** The evidently intended check: times compared by their minutes. */
  predicate DayValidIntended(day: string, hours: WorkingDaysConfig) {
    day in hours && IsTimeFormat(hours[day].start) && IsTimeFormat(hours[day].end)
    && Minutes(hours[day].start) < Minutes(hours[day].end)
  }

  /** The start is not before the end: by minutes when both times are well
      formed, otherwise by the string comparison the source uses. */
  predicate NotBeforeIntended(start: string, end: string) {
    if IsTimeFormat(start) && IsTimeFormat(end) then Minutes(start) >= Minutes(end) else LexLe(end, start)
  }

  /** The per-day errors with the intended comparison; the validation below
      is built on these. Only the ordering test of well-formed times differs
      from `DayErrors`. */
  function DayErrorsIntended(day: string, hours: WorkingDaysConfig): (r: seq<string>)
    ensures r == [] <==> DayValidIntended(day, hours)
  {
    if day !in hours then ["Working hours not configured for " + day]
    else
      var h := hours[day];
      (if IsTimeFormat(h.start) then [] else ["Invalid start time format for " + day + ": " + h.start])
      + (if IsTimeFormat(h.end) then [] else ["Invalid end time format for " + day + ": " + h.end])
      + (if NotBeforeIntended(h.start, h.end) then ["Start time must be before end time for " + day] else [])
  }

  /** The intended check reports exactly the errors of the string comparison
      whenever both times are written with five characters, well formed or
      not; in particular the two agree on validity. */
  lemma IntendedAgreesOnPaddedTimes(day: string, hours: WorkingDaysConfig)
    requires day in hours ==> |hours[day].start| == 5 && |hours[day].end| == 5
    ensures DayErrorsIntended(day, hours) == DayErrors(day, hours)
    ensures DayValidIntended(day, hours) <==> DayValid(day, hours)
  {
    if day in hours {
      var h := hours[day];
      if IsTimeFormat(h.start) && IsTimeFormat(h.end) {
        PaddedTimesCompareAsMinutes(h.end, h.start);
      }
    }
  }

  /** A malformed time still gets the ordering error when it is not before
      the end as a string, as in the source. */
  lemma MalformedStartKeepsOrderingError()
    ensures var hours := map["monday" := DayHours("25:00", "17:00")];
      DayErrorsIntended("monday", hours) == DayErrors("monday", hours)
      == ["Invalid start time format for monday: 25:00", "Start time must be before end time for monday"]
  {
    var hours := map["monday" := DayHours("25:00", "17:00")];
    assert !IsTimeFormat("25:00") && IsTimeFormat("17:00");
    assert LexLe("17:00", "25:00");
    IntendedAgreesOnPaddedTimes("monday", hours);
    assert DayErrors("monday", hours) == ["Invalid start time format for " + "monday" + ": " + "25:00"]
      + [] + ["Start time must be before end time for " + "monday"];
    assert "Invalid start time format for " + "monday" + ": " + "25:00" == "Invalid start time format for monday: 25:00";
    assert "Start time must be before end time for " + "monday" == "Start time must be before end time for monday";
  }

  lemma IntendedAcceptsSingleDigitStart()
    ensures DayValidIntended("monday", map["monday" := DayHours("9:00", "17:00")])
  {
  }

  /** The per-day errors of all listed days, in list order. */
  function AllDayErrors(days: seq<string>, hours: WorkingDaysConfig): seq<string> {
    if |days| == 0 then []
    else AllDayErrors(days[..|days| - 1], hours) + DayErrorsIntended(days[|days| - 1], hours)
  }

  lemma AllDayErrorsSnoc(days: seq<string>, day: string, hours: WorkingDaysConfig)
    ensures AllDayErrors(days + [day], hours) == AllDayErrors(days, hours) + DayErrorsIntended(day, hours)
  {
    assert (days + [day])[..|days|] == days;
  }

  /** No error is reported for the listed days exactly when every one of
      them passes. */
  lemma {:induction false} AllDayErrorsEmptyIff(days: seq<string>, hours: WorkingDaysConfig)
    ensures AllDayErrors(days, hours) == [] <==> forall i :: 0 <= i < |days| ==> DayValidIntended(days[i], hours)
  {
    if |days| > 0 {
      var init := days[..|days| - 1];
      AllDayErrorsEmptyIff(init, hours);
      assert forall i :: 0 <= i < |init| ==> init[i] == days[i];
    }
  }

  /** The `forEach` of `validateWorkingHours`: each listed day's errors,
      appended in list order. */
  method CollectDayErrors(days: seq<string>, hours: WorkingDaysConfig) returns (errors: seq<string>)
    ensures errors == AllDayErrors(days, hours)
  {
    errors := [];
    for i := 0 to |days|
      invariant errors == AllDayErrors(days[..i], hours)
    {
      assert days[..i + 1] == days[..i] + [days[i]];
      AllDayErrorsSnoc(days[..i], days[i], hours);
      errors := errors + DayErrorsIntended(days[i], hours);
    }
    assert days[..|days|] == days;
  }

  /** `validateWorkingHours`: an error for an empty day list, then each
      listed day's errors; valid exactly when there are none. */
  method ValidateWorkingHours(days: seq<string>, hours: WorkingDaysConfig) returns (valid: bool, errors: seq<string>)
    ensures errors == (if |days| == 0 then [NoWorkingDayError] else []) + AllDayErrors(days, hours)
    ensures valid <==> |errors| == 0
  {
    errors := [];
    if |days| == 0 {
      errors := errors + [NoWorkingDayError];
    }
    var dayErrors := CollectDayErrors(days, hours);
    errors := errors + dayErrors;
    valid := |errors| == 0;
  }

  /** A schedule validates exactly when at least one day is listed and every
      listed day has well-formed hours with the start before the end. */
  lemma ValidationIff(days: seq<string>, hours: WorkingDaysConfig)
    ensures |(if |days| == 0 then [NoWorkingDayError] else []) + AllDayErrors(days, hours)| == 0 <==>
      |days| > 0 && forall i :: 0 <= i < |days| ==> DayValidIntended(days[i], hours)
  {
    AllDayErrorsEmptyIff(days, hours);
  }

  /** `day.charAt(0).toUpperCase() + day.slice(1)`, with ASCII upper-casing. */
  function Capitalize(s: string): (r: string)
    ensures |r| == |s| && (|s| > 0 ==> r[0] == UpperChar(s[0]) && r[1..] == s[1..])
  {
    if |s| == 0 then "" else [UpperChar(s[0])] + s[1..]
  }

  function ScheduleEntry(day: string, h: DayHours): string {
    Capitalize(day) + ": " + h.start + " - " + h.end
  }

  /** The listed days that have hours, in list order. */
  function ConfiguredDays(days: seq<string>, hours: WorkingDaysConfig): (r: seq<string>)
    ensures |r| <= |days|
    ensures forall i :: 0 <= i < |r| ==> r[i] in hours && r[i] in days
    ensures forall i :: 0 <= i < |days| && days[i] in hours ==> days[i] in r
  {
    if |days| == 0 then []
    else
      var init := ConfiguredDays(days[..|days| - 1], hours);
      var last := days[|days| - 1];
      assert forall d :: d in days[..|days| - 1] ==> d in days;
      init + (if last in hours then [last] else [])
  }

  /** One schedule entry per configured listed day. */
  function ScheduleEntries(days: seq<string>, hours: WorkingDaysConfig): (r: seq<string>)
    ensures var c := ConfiguredDays(days, hours);
      |r| == |c| && forall i :: 0 <= i < |c| ==> r[i] == ScheduleEntry(c[i], hours[c[i]])
  {
    var c := ConfiguredDays(days, hours);
    seq(|c|, i requires 0 <= i < |c| => ScheduleEntry(c[i], hours[c[i]]))
  }

  lemma ScheduleEntriesSnoc(days: seq<string>, day: string, hours: WorkingDaysConfig)
    ensures ScheduleEntries(days + [day], hours)
         == ScheduleEntries(days, hours) + (if day in hours then [ScheduleEntry(day, hours[day])] else [])
  {
    assert (days + [day])[..|days|] == days;
  }

  /** `formatWorkingSchedule`: the entries of the listed days that have
      hours, joined by `", "`. */
  method FormatWorkingSchedule(days: seq<string>, hours: WorkingDaysConfig) returns (s: string)
    ensures s == Join(ScheduleEntries(days, hours), ", ")
  {
    var schedule: seq<string> := [];
    for i := 0 to |days|
      invariant schedule == ScheduleEntries(days[..i], hours)
    {
      assert days[..i + 1] == days[..i] + [days[i]];
      ScheduleEntriesSnoc(days[..i], days[i], hours);
      if days[i] in hours {
        schedule := schedule + [ScheduleEntry(days[i], hours[days[i]])];
      }
    }
    assert days[..|days|] == days;
    s := Join(schedule, ", ");
  }

  predicate IsSign(c: char) {
    c == '+' || c == '-'
  }

  /** The text before the first `+` or `-`. */
  function BeforeSign(s: string): (r: string)
    ensures IsPrefix(r, s)
    ensures forall i :: 0 <= i < |r| ==> !IsSign(r[i])
    ensures |r| < |s| ==> IsSign(s[|r|])
  {
    if |s| == 0 || IsSign(s[0]) then "" else [s[0]] + BeforeSign(s[1..])
  }

  /** `parseTimezone`: a zone with an offset suffix loses it. */
  function ParseTimezone(tz: string): (r: string)
    ensures IsPrefix(r, tz)
    ensures forall i :: 0 <= i < |r| ==> !IsSign(r[i])
    ensures (exists i :: 0 <= i < |tz| && IsSign(tz[i])) ==> |r| < |tz| && IsSign(tz[|r|])
    ensures (forall i :: 0 <= i < |tz| ==> !IsSign(tz[i])) ==> r == tz
  {
    if exists i :: 0 <= i < |tz| && IsSign(tz[i]) then BeforeSign(tz) else tz
  }

  /** Parsing a parsed zone changes nothing. */
  lemma ParseTimezoneIdempotent(tz: string)
    ensures ParseTimezone(ParseTimezone(tz)) == ParseTimezone(tz)
  {
  }

  /** `padStart(2, '0')` of a number below 100. */
  function Pad2(n: nat): (r: string)
    requires n < 100
    ensures |r| == 2 && IsDigit(r[0]) && IsDigit(r[1])
    ensures DigitValue(r[0]) * 10 + DigitValue(r[1]) == n
  {
    [DigitChar(n / 10), DigitChar(n % 10)]
  }

  /** The `HH:mm` form of the current local time. */
  function ClockTime(hour: nat, minute: nat): (t: string)
    requires hour < 24 && minute < 60
    ensures |t| == 5 && IsTimeFormat(t) && Minutes(t) == hour * 60 + minute
  {
    Pad2(hour) + ":" + Pad2(minute)
  }

  /** Every well-formed time is the clock rendering of its own minutes,
      after the leading zero a one-digit hour leaves out. */
  lemma TimeFormatIsClockTime(t: string)
    requires IsTimeFormat(t)
    ensures Minutes(t) / 60 < 24 && Minutes(t) % 60 < 60
    ensures ClockTime(Minutes(t) / 60, Minutes(t) % 60) == (if |t| == 5 then t else "0" + t)
  {
    var padded := if |t| == 5 then t else "0" + t;
    assert |padded| == 5 && padded[2] == ':';
    var h := DigitValue(padded[0]) * 10 + DigitValue(padded[1]);
    var m := DigitValue(padded[3]) * 10 + DigitValue(padded[4]);
    assert Minutes(t) == h * 60 + m && h < 24 && m < 60;
    DivModClock(h, m);
    assert Minutes(t) / 60 == h && Minutes(t) % 60 == m;
    PadDigits(h, padded[0], padded[1]);
    PadDigits(m, padded[3], padded[4]);
    assert ClockTime(h, m) == [padded[0], padded[1]] + ":" + [padded[3], padded[4]];
    assert padded == [padded[0], padded[1], ':', padded[3], padded[4]];
  }

  lemma DivModClock(h: nat, m: nat)
    requires m < 60
    ensures (h * 60 + m) / 60 == h && (h * 60 + m) % 60 == m
  {
  }

  /** Two digits are the `Pad2` of the number they denote. */
  lemma PadDigits(n: nat, a: char, b: char)
    requires IsDigit(a) && IsDigit(b) && n == DigitValue(a) * 10 + DigitValue(b)
    ensures Pad2(n) == [a, b]
  {
  }

  /** The day and time check of `isWorkingTime`: the current day is listed,
      has hours, and the current time lies between start and end inclusive,
      compared as strings. */
  function IsWorkingTime(days: seq<string>, hours: WorkingDaysConfig, dayIndex: nat, hour: nat, minute: nat): (r: bool)
    requires dayIndex < 7 && hour < 24 && minute < 60
    ensures r ==> DayMapping[dayIndex] in days && DayMapping[dayIndex] in hours
    ensures var day := DayMapping[dayIndex];
      r ==> LexLe(hours[day].start, ClockTime(hour, minute)) && LexLe(ClockTime(hour, minute), hours[day].end)
  {
    var day := DayMapping[dayIndex];
    var now := ClockTime(hour, minute);
    day in days && day in hours && LexLe(hours[day].start, now) && LexLe(now, hours[day].end)
  }

  /** With two-digit hours the check is the interval test on minutes. */
  lemma WorkingTimeIsInterval(days: seq<string>, hours: WorkingDaysConfig, dayIndex: nat, hour: nat, minute: nat)
    requires dayIndex < 7 && hour < 24 && minute < 60
    requires var day := DayMapping[dayIndex];
      day in hours && IsTimeFormat(hours[day].start) && IsTimeFormat(hours[day].end)
      && |hours[day].start| == 5 && |hours[day].end| == 5
    ensures var day := DayMapping[dayIndex];
      IsWorkingTime(days, hours, dayIndex, hour, minute) <==>
        day in days && Minutes(hours[day].start) <= hour * 60 + minute <= Minutes(hours[day].end)
  {
    var day := DayMapping[dayIndex];
    var now := ClockTime(hour, minute);
    PaddedTimesCompareAsMinutes(hours[day].start, now);
    PaddedTimesCompareAsMinutes(now, hours[day].end);
  }

  /** Finding, as written: with a `9:00` start, 10:00 on a listed Monday is
      not working time. */
  lemma TenAfterSingleDigitStartIsOff()
    ensures !IsWorkingTime(["monday"], map["monday" := DayHours("9:00", "17:00")], 1, 10, 0)
  {
    assert ClockTime(10, 0) == "10:00";
    assert !LexLe("9:00", "10:00");
  }

  /** The evidently intended check: the interval test on minutes. */
  function IsWorkingTimeIntended(days: seq<string>, hours: WorkingDaysConfig, dayIndex: nat, hour: nat, minute: nat): (r: bool)
    requires dayIndex < 7 && hour < 24 && minute < 60
    ensures r ==> DayMapping[dayIndex] in days && DayMapping[dayIndex] in hours
    ensures var day := DayMapping[dayIndex];
      day in days && DayValidIntended(day, hours) ==>
        (r <==> Minutes(hours[day].start) <= hour * 60 + minute <= Minutes(hours[day].end))
  {
    var day := DayMapping[dayIndex];
    day in days && day in hours && IsTimeFormat(hours[day].start) && IsTimeFormat(hours[day].end)
    && Minutes(hours[day].start) <= hour * 60 + minute <= Minutes(hours[day].end)
  }

  lemma IntendedTenAfterSingleDigitStartIsOn()
    ensures IsWorkingTimeIntended(["monday"], map["monday" := DayHours("9:00", "17:00")], 1, 10, 0)
  {
  }
}
