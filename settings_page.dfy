/**
 * The settings page (app/dashboard/settings/page.tsx): it shows the
 * settings and working days of the two hooks, overlaid with optimistic
 * copies of what the user just changed, and hands every change to the
 * hooks.
 *
 * The page's React state is a class whose handlers call the hooks' methods.
 * Each handler is also a function of the page and hook states before it.
 *
 * The page reverts its optimistic copy when a hook call fails, but it learns
 * of a failure only through an exception, and both hooks catch every error
 * themselves. As written, a failed save therefore leaves the page showing
 * values that were never stored (the `...AsWritten` functions and the
 * lemmas beside them). The handlers the class runs revert whenever the hook
 * did not save, which is what the revert code is there for.
 */
module SettingsPage {
  import opened Common
  import opened Supabase
  import opened WorkingDaysHook
  import opened SettingsHook

  // ---------------------------------------------------------------------
  // formatTime (185-194)
  // ---------------------------------------------------------------------

  /** An hour of the two time pickers: `${pad2(h)}:00`. */
  function HourOption(h: nat): string
    requires h < 24
  {
    [DigitChar(h / 10), DigitChar(h % 10)] + ":00"
  }

  /** formatTime: the text itself on a 24-hour clock, otherwise the hour
    * before the colon on a 12-hour clock, the minutes always shown as 00. */
  function FormatTime(time: string, militaryTime: bool): (r: string)
    ensures militaryTime ==> r == time
  {
    if militaryTime then time
    else
      var hour := ParseInt(BeforeColon(time));
      if hour.None? then "NaN:00 AM"
      else
        var h := hour.value;
        var period := if h >= 12 then "PM" else "AM";
        var shown := if h > 12 then h - 12 else if h == 0 then 12 else h;
        IntToString(shown) + ":00 " + period
  }

  /** The text before a first colon that follows a colon-free prefix. */
  lemma {:induction false} BeforeColonOf(s: string, rest: string)
    requires ':' !in s
    ensures BeforeColon(s + ":" + rest) == s
    decreases |s|
  {
    if |s| == 0 {
      assert s + ":" + rest == [':'] + rest;
    } else {
      assert (s + ":" + rest)[0] == s[0];
      assert (s + ":" + rest)[1..] == s[1..] + ":" + rest;
      BeforeColonOf(s[1..], rest);
      assert s == [s[0]] + s[1..];
    }
  }

  /** Two decimal digits are read as the number they spell. */
  lemma TwoDigitsValue(h: nat)
    requires h < 100
    ensures var d := [DigitChar(h / 10), DigitChar(h % 10)];
            AllDigits(d) && DigitsValue(d) == h
  {
    var d := [DigitChar(h / 10), DigitChar(h % 10)];
    assert d[..1] == [DigitChar(h / 10)];
    assert d[..1][..0] == [];
    assert DigitsValue(d[..1]) == h / 10;
  }

  /** The picker's hour is read back by parseInt. */
  lemma HourOptionParses(h: nat)
    requires h < 24
    ensures ParseInt(BeforeColon(HourOption(h))) == Some(h)
  {
    var d := [DigitChar(h / 10), DigitChar(h % 10)];
    assert HourOption(h) == d + ":" + "00";
    assert ':' !in d by { assert IsDigit(d[0]) && IsDigit(d[1]); }
    BeforeColonOf(d, "00");
    TwoDigitsValue(h);
    assert d + "" == d;
    ParseIntLeadingDigits(d, "");
  }

  /** The hour shown on a 12-hour clock: 1..12, congruent to the hour. */
  function TwelveHour(h: int): int
  {
    if h % 12 == 0 then 12 else h % 12
  }

  lemma TwelveHourOf(h: int)
    requires 0 <= h < 24
    ensures 1 <= TwelveHour(h) <= 12 && TwelveHour(h) % 12 == h % 12
    ensures TwelveHour(h) == (if h > 12 then h - 12 else if h == 0 then 12 else h)
  {
    if h >= 12 {
      assert h % 12 == h - 12;
    } else {
      assert h % 12 == h;
    }
  }

  /** On a 12-hour clock an hour 0-23 is shown as d:00 with d in 1..12 and
    * congruent to the hour modulo 12, PM exactly from noon. */
  lemma FormatTimeTwelveHour(time: string, h: int)
    requires ParseInt(BeforeColon(time)) == Some(h) && 0 <= h < 24
    ensures 1 <= TwelveHour(h) <= 12 && TwelveHour(h) % 12 == h % 12
    ensures FormatTime(time, false) == NatToString(TwelveHour(h)) + ":00 " + (if h >= 12 then "PM" else "AM")
  {
    TwelveHourOf(h);
  }

  lemma DigitsHaveNoColon(s: string)
    requires AllDigits(s)
    ensures ':' !in s
  {
    forall k | 0 <= k < |s|
      ensures s[k] != ':'
    {
      assert IsDigit(s[k]);
    }
  }

  /** Two 12-hour texts that agree are the same hour, number and period. */
  lemma TwelveHourTextInjective(h1: int, h2: int)
    requires 0 <= h1 < 24 && 0 <= h2 < 24
    requires NatToString(TwelveHour(h1)) + ":00 " + (if h1 >= 12 then "PM" else "AM")
          == NatToString(TwelveHour(h2)) + ":00 " + (if h2 >= 12 then "PM" else "AM")
    ensures h1 == h2
  {
    TwelveHourOf(h1);
    TwelveHourOf(h2);
    var n1 := NatToString(TwelveHour(h1));
    var n2 := NatToString(TwelveHour(h2));
    var p1 := if h1 >= 12 then "PM" else "AM";
    var p2 := if h2 >= 12 then "PM" else "AM";
    var s := n1 + ":00 " + p1;
    assert s == n1 + ":" + ("00 " + p1);
    assert s == n2 + ":" + ("00 " + p2);
    DigitsHaveNoColon(n1);
    DigitsHaveNoColon(n2);
    BeforeColonOf(n1, "00 " + p1);
    BeforeColonOf(n2, "00 " + p2);
    NatToStringInjective(TwelveHour(h1), TwelveHour(h2));
    assert s[|s| - 2..] == p1;
    assert s[|s| - 2..] == p2;
  }

  /** Different picker hours are shown differently on a 12-hour clock. */
  lemma FormatTimeInjective(h1: nat, h2: nat)
    requires h1 < 24 && h2 < 24
    requires FormatTime(HourOption(h1), false) == FormatTime(HourOption(h2), false)
    ensures h1 == h2
  {
    HourOptionParses(h1);
    HourOptionParses(h2);
    FormatTimeTwelveHour(HourOption(h1), h1);
    FormatTimeTwelveHour(HourOption(h2), h2);
    TwelveHourTextInjective(h1, h2);
  }

  // ---------------------------------------------------------------------
  // calculateTotalWeeklyHours (243-264)
  // ---------------------------------------------------------------------

  /** The whole hours a day adds: for a worked day with both times given,
    * the end hour less the start hour, at least 0, or nothing when either
    * hour is not a number. Minutes are ignored. */
  function DayHours(d: WorkingDay): nat
  {
    if !d.isWorkingDay || d.startTime == "" || d.endTime == "" then 0
    else
      match (NumberValue(BeforeColon(d.startTime)), NumberValue(BeforeColon(d.endTime)))
      case (Some(a), Some(b)) => if b > a then b - a else 0
      case _ => 0
  }

  function WeeklyHours(days: seq<WorkingDay>): nat
  {
    if |days| == 0 then 0 else WeeklyHours(days[..|days| - 1]) + DayHours(days[|days| - 1])
  }

  /** calculateTotalWeeklyHours. */
  method TotalWeeklyHours(days: seq<WorkingDay>) returns (total: int)
    ensures total == WeeklyHours(days)
  {
    total := 0;
    var i := 0;
    while i < |days|
      invariant 0 <= i <= |days|
      invariant total == WeeklyHours(days[..i])
    {
      assert days[..i + 1][..i] == days[..i];
      total := total + DayHours(days[i]);
      i := i + 1;
    }
    assert days[..i] == days;
  }

  lemma {:induction false} WeeklyHoursAppend(a: seq<WorkingDay>, b: seq<WorkingDay>)
    ensures WeeklyHours(a + b) == WeeklyHours(a) + WeeklyHours(b)
    decreases |b|
  {
    if |b| == 0 {
      assert a + b == a;
    } else {
      assert (a + b)[..|a + b| - 1] == a + b[..|b| - 1];
      WeeklyHoursAppend(a, b[..|b| - 1]);
    }
  }

  /** Two weeks that agree on which days are worked, on which times are
    * given and on the hour before each colon have the same total: the
    * minutes play no part. */
  lemma {:induction false} WeeklyHoursIgnoresMinutes(a: seq<WorkingDay>, b: seq<WorkingDay>)
    requires |a| == |b|
    requires forall i :: 0 <= i < |a| ==> a[i].isWorkingDay == b[i].isWorkingDay
    requires forall i :: 0 <= i < |a| ==> (a[i].startTime == "") == (b[i].startTime == "") && (a[i].endTime == "") == (b[i].endTime == "")
    requires forall i :: 0 <= i < |a| ==>
               BeforeColon(a[i].startTime) == BeforeColon(b[i].startTime) && BeforeColon(a[i].endTime) == BeforeColon(b[i].endTime)
    ensures WeeklyHours(a) == WeeklyHours(b)
    decreases |a|
  {
    if |a| > 0 {
      WeeklyHoursIgnoresMinutes(a[..|a| - 1], b[..|b| - 1]);
      assert DayHours(a[|a| - 1]) == DayHours(b[|b| - 1]);
    }
  }

  /** `Number` of a picker hour's text before the colon is the hour. */
  lemma HourOptionNumber(h: nat)
    requires h < 24
    ensures NumberValue(BeforeColon(HourOption(h))) == Some(h)
  {
    var d := [DigitChar(h / 10), DigitChar(h % 10)];
    assert HourOption(h) == d + ":" + "00";
    DigitsHaveNoColon(d);
    BeforeColonOf(d, "00");
    TwoDigitsValue(h);
    NumberValueOfDigits(d);
  }

  /** A worked day between two picker hours adds their difference. */
  lemma WorkedDayHours(d: WorkingDay, a: nat, b: nat)
    requires a < b < 24 && d.isWorkingDay
    requires d.startTime == HourOption(a) && d.endTime == HourOption(b)
    ensures DayHours(d) == b - a
  {
    HourOptionNumber(a);
    HourOptionNumber(b);
  }

  /** The office hours of the default week as picker hours. */
  lemma OfficeHours()
    ensures HourOption(9) == "09:00" && HourOption(17) == "17:00"
  {
    assert DigitChar(0) == '0' && DigitChar(9) == '9' && DigitChar(1) == '1' && DigitChar(7) == '7';
  }

  /** A week whose Monday to Friday add `n` hours each and whose weekend
    * adds nothing holds `5 * n` hours. */
  lemma FiveDayWeek(days: seq<WorkingDay>, n: nat)
    requires |days| == 7 && DayHours(days[0]) == 0 && DayHours(days[6]) == 0
    requires forall i :: 1 <= i <= 5 ==> DayHours(days[i]) == n
    ensures WeeklyHours(days) == 5 * n
  {
    assert DayHours(days[1]) == n && DayHours(days[2]) == n && DayHours(days[3]) == n;
    assert DayHours(days[4]) == n && DayHours(days[5]) == n;
    assert WeeklyHours(days[..0]) == 0;
    PrefixStep(days, 1);
    PrefixStep(days, 2);
    PrefixStep(days, 3);
    PrefixStep(days, 4);
    PrefixStep(days, 5);
    PrefixStep(days, 6);
    PrefixStep(days, 7);
    assert days[..7] == days;
  }

  /** The hours of a prefix one day longer. */
  lemma PrefixStep(days: seq<WorkingDay>, k: nat)
    requires 0 < k <= |days|
    ensures WeeklyHours(days[..k]) == WeeklyHours(days[..k - 1]) + DayHours(days[k - 1])
  {
    assert days[..k][..k - 1] == days[..k - 1];
  }

  /** A week of seven days with the same two picker hours, Monday to
    * Friday worked, holds five times their difference. */
  lemma OfficeWeekHours(days: seq<WorkingDay>, a: nat, b: nat)
    requires a < b < 24 && |days| == 7
    requires forall i :: 0 <= i < 7 ==> days[i].startTime == HourOption(a) && days[i].endTime == HourOption(b)
    requires forall i :: 0 <= i < 7 ==> (days[i].isWorkingDay <==> 1 <= i <= 5)
    ensures WeeklyHours(days) == 5 * (b - a)
  {
    forall i | 1 <= i <= 5
      ensures DayHours(days[i]) == b - a
    {
      WorkedDayHours(days[i], a, b);
    }
    assert !days[0].isWorkingDay && !days[6].isWorkingDay;
    FiveDayWeek(days, b - a);
  }

  /** The default week holds forty hours. */
  lemma DefaultWeekHours()
    ensures WeeklyHours(DefaultWorkingDays()) == 40
  {
    OfficeHours();
    OfficeWeekHours(DefaultWorkingDays(), 9, 17);
  }

  // ---------------------------------------------------------------------
  // Per-day edits (90-121), the work-type reset (266-299), the missing-day
  // fallback (450-456)
  // ---------------------------------------------------------------------

  /** `Partial<WorkingDay>` as the page passes it. */
  datatype DayPatch = DayPatch(isWorkingDay: Option<bool>, startTime: Option<string>, endTime: Option<string>)

  /** `{ ...day, ...updates }`. */
  function Patched(d: WorkingDay, u: DayPatch): WorkingDay
  {
    WorkingDay(d.dayOfWeek, OrElse(u.startTime, d.startTime), OrElse(u.endTime, d.endTime), OrElse(u.isWorkingDay, d.isWorkingDay))
  }

  /** The list with the updates merged into the entries for `dayOfWeek`. */
  function DayUpdated(days: seq<WorkingDay>, dayOfWeek: string, u: DayPatch): (r: seq<WorkingDay>)
    ensures |r| == |days|
    ensures forall i :: 0 <= i < |days| && days[i].dayOfWeek == dayOfWeek ==> r[i] == Patched(days[i], u)
    ensures forall i :: 0 <= i < |days| && days[i].dayOfWeek != dayOfWeek ==> r[i] == days[i]
  {
    seq(|days|, i requires 0 <= i < |days| => if days[i].dayOfWeek == dayOfWeek then Patched(days[i], u) else days[i])
  }

  /** Both times are given and the start hour is not before the end hour.
    * `parseInt` of a non-number is NaN, and a comparison with NaN is false. */
  predicate RejectsHours(u: DayPatch)
  {
    u.startTime.Some? && u.startTime.value != "" && u.endTime.Some? && u.endTime.value != ""
    && var start := ParseInt(BeforeColon(u.startTime.value));
       var end := ParseInt(BeforeColon(u.endTime.value));
       start.Some? && end.Some? && start.value >= end.value
  }

  /** The weekdays a full-time week works, Monday to Friday. */
  const WEEKDAYS: set<string> := {"1", "2", "3", "4", "5"}

  /** handleWorkTypeChange's list: full time works Monday to Friday, 09:00 to
    * 17:00, every day; any other value keeps the list. */
  function WorkTypeDays(days: seq<WorkingDay>, workType: string): (r: seq<WorkingDay>)
    ensures |r| == |days|
    ensures workType != "full-time" ==> r == days
    ensures workType == "full-time" ==>
              forall i :: 0 <= i < |days| ==>
                && r[i].dayOfWeek == days[i].dayOfWeek
                && (r[i].isWorkingDay <==> days[i].dayOfWeek in WEEKDAYS)
                && r[i].startTime == "09:00" && r[i].endTime == "17:00"
  {
    seq(|days|, i requires 0 <= i < |days| =>
      WorkingDay(days[i].dayOfWeek,
                 if workType == "full-time" then "09:00" else days[i].startTime,
                 if workType == "full-time" then "17:00" else days[i].endTime,
                 if workType == "full-time" then days[i].dayOfWeek in WEEKDAYS else days[i].isWorkingDay))
  }

  /** Resetting a week that lists each weekday once, in order, to full time
    * gives the default week, forty hours. */
  lemma FullTimeWeekHours(days: seq<WorkingDay>)
    requires |days| == 7 && forall i :: 0 <= i < 7 ==> days[i].dayOfWeek == [DigitChar(i)]
    ensures WorkTypeDays(days, "full-time") == DefaultWorkingDays()
    ensures WeeklyHours(WorkTypeDays(days, "full-time")) == 40
  {
    var r := WorkTypeDays(days, "full-time");
    var d := DefaultWorkingDays();
    WeekdayNames();
    forall i | 0 <= i < 7
      ensures r[i] == d[i]
    {
      assert r[i].isWorkingDay <==> 1 <= i <= 5;
    }
    assert r == d;
    DefaultWeekHours();
  }

  /** The weekday numbers 0-6 as text, and which of them work full time. */
  lemma WeekdayNames()
    ensures forall i :: 0 <= i < 7 ==> ([DigitChar(i)] in WEEKDAYS <==> 1 <= i <= 5)
  {
    assert DigitChar(0) == '0' && DigitChar(1) == '1' && DigitChar(2) == '2' && DigitChar(3) == '3';
    assert DigitChar(4) == '4' && DigitChar(5) == '5' && DigitChar(6) == '6';
  }

  /** The entry the page shows for a weekday: the first one listed for it,
    * or a day off from 09:00 to 17:00. */
  function DayOrDefault(days: seq<WorkingDay>, value: string): (d: WorkingDay)
    ensures d.dayOfWeek == value
    ensures (forall i :: 0 <= i < |days| ==> days[i].dayOfWeek != value) ==> d == WorkingDay(value, "09:00", "17:00", false)
    ensures (exists i :: 0 <= i < |days| && days[i].dayOfWeek == value) ==>
              exists i :: 0 <= i < |days| && d == days[i] && forall j :: 0 <= j < i ==> days[j].dayOfWeek != value
  {
    if |days| == 0 then WorkingDay(value, "09:00", "17:00", false)
    else if days[0].dayOfWeek == value then days[0]
    else
      var d := DayOrDefault(days[1..], value);
      assert (exists i :: 0 <= i < |days| && days[i].dayOfWeek == value) ==>
               exists i :: 0 <= i < |days[1..]| && days[1..][i].dayOfWeek == value by {
        if exists i :: 0 <= i < |days| && days[i].dayOfWeek == value {
          var i :| 0 <= i < |days| && days[i].dayOfWeek == value;
          assert days[1..][i - 1] == days[i];
        }
      }
      assert (exists i :: 0 <= i < |days[1..]| && days[1..][i].dayOfWeek == value) ==>
               exists i :: 0 <= i < |days| && d == days[i] && forall j :: 0 <= j < i ==> days[j].dayOfWeek != value by {
        if exists i :: 0 <= i < |days[1..]| && days[1..][i].dayOfWeek == value {
          var i :| 0 <= i < |days[1..]| && d == days[1..][i] && forall j :: 0 <= j < i ==> days[1..][j].dayOfWeek != value;
          assert d == days[i + 1];
          assert forall j :: 0 <= j < i + 1 ==> days[j].dayOfWeek != value by {
            forall j | 0 <= j < i + 1 ensures days[j].dayOfWeek != value {
              if j > 0 { assert days[j] == days[1..][j - 1]; }
            }
          }
        }
      }
      d
  }

  // ---------------------------------------------------------------------
  // Categories (201-241)
  // ---------------------------------------------------------------------

  datatype Verdict = Verdict(ok: bool, error: string)

  /** validateCategory: a blank name or one already listed is refused, with
    * its message; an accepted one clears the message to "". */
  function ValidateCategory(category: string, categories: seq<string>): (r: Verdict)
    ensures r.ok <==> Trim(category) != "" && category !in categories
    ensures r.ok <==> r.error == ""
    ensures Trim(category) == "" ==> r.error == "Category name cannot be empty"
    ensures Trim(category) != "" && category in categories ==> r.error == "Category already exists"
  {
    if Trim(category) == "" then Verdict(false, "Category name cannot be empty")
    else if category in categories then Verdict(false, "Category already exists")
    else Verdict(true, "")
  }

  /** addCategory's list: the trimmed name appended, duplicates allowed. */
  function WithCategory(categories: seq<string>, input: string): seq<string>
  {
    categories + [Trim(input)]
  }

  /** removeCategory's list: every entry equal to `category` left out. */
  function WithoutCategory(categories: seq<string>, category: string): (r: seq<string>)
    ensures |r| <= |categories|
  {
    if |categories| == 0 then []
    else if categories[0] == category then WithoutCategory(categories[1..], category)
    else [categories[0]] + WithoutCategory(categories[1..], category)
  }

  /** Removal keeps exactly the other entries, in their order. */
  lemma {:induction false} WithoutCategoryKeepsOthers(categories: seq<string>, category: string)
    ensures forall x :: x in WithoutCategory(categories, category) <==> x in categories && x != category
    ensures category !in categories ==> WithoutCategory(categories, category) == categories
    ensures WithoutCategory(WithoutCategory(categories, category), category) == WithoutCategory(categories, category)
  {
    if |categories| > 0 {
      WithoutCategoryKeepsOthers(categories[1..], category);
      assert categories == [categories[0]] + categories[1..];
      if categories[0] != category {
        var rest := WithoutCategory(categories[1..], category);
        assert ([categories[0]] + rest)[1..] == rest;
      }
    }
  }

  /** Removal after appending takes off what was appended when the name was
    * new. */
  lemma {:induction false} RemoveAfterAdd(categories: seq<string>, input: string)
    requires Trim(input) !in categories
    ensures WithoutCategory(WithCategory(categories, input), Trim(input)) == categories
    decreases |categories|
  {
    if |categories| == 0 {
      assert WithCategory(categories, input) == [Trim(input)];
      assert [Trim(input)][1..] == [];
    } else {
      assert WithCategory(categories, input)[1..] == WithCategory(categories[1..], input);
      assert Trim(input) !in categories[1..];
      RemoveAfterAdd(categories[1..], input);
      assert categories == [categories[0]] + categories[1..];
    }
  }

  // ---------------------------------------------------------------------
  // displaySettings (81-87)
  // ---------------------------------------------------------------------

  /** The page's own fallback settings (61-65): no categories. */
  const PAGE_DEFAULTS := Settings(false, "full-time", [])

  /** displaySettings: each key from the optimistic copy, else from the
    * hook's settings, else the page's fallback. */
  function DisplaySettings(optimistic: SettingsPatch, server: SettingsPatch): Settings
  {
    Settings(OrElse(optimistic.militaryTime, OrElse(server.militaryTime, PAGE_DEFAULTS.militaryTime)),
             OrElse(optimistic.workType, OrElse(server.workType, PAGE_DEFAULTS.workType)),
             OrElse(optimistic.categories, OrElse(server.categories, PAGE_DEFAULTS.categories)))
  }

  /** A whole optimistic copy is what the page shows; a key missing from
    * both falls back to the page's defaults. */
  lemma DisplaySettingsFallbacks(o: Settings, server: SettingsPatch)
    ensures DisplaySettings(Whole(o), server) == o
    ensures DisplaySettings(SettingsPatch(None, None, None), SettingsPatch(None, None, None)) == PAGE_DEFAULTS
    ensures DisplaySettings(SettingsPatch(None, None, None), Whole(o)) == o
  {
  }

  /** displayWorkingDays (82). */
  function DisplayDays(optimistic: seq<WorkingDay>, stored: seq<WorkingDay>): seq<WorkingDay>
  {
    if |optimistic| > 0 then optimistic else stored
  }

  // ---------------------------------------------------------------------
  // The handlers as functions of the page and hook states
  // ---------------------------------------------------------------------

  datatype PageState = PageState(
    optimisticDays: seq<WorkingDay>,
    optimisticSettings: Settings,
    error: Option<string>,
    isUpdating: bool,
    newCategory: string)

  const INITIAL_PAGE := PageState([], PAGE_DEFAULTS, None, false, "")

  const END_BEFORE_START := "End time must be after start time"
  const DAYS_FAILED := "Failed to update working hours. Please try again."
  const SETTINGS_FAILED := "Failed to update settings. Please try again."
  const WORK_TYPE_FAILED := "Failed to update work type. Please try again."

  /** What one settings write takes: the hook's replies and the time. */
  datatype SettingsWrite = SettingsWrite(userId: Option<string>, fetch: SettingsReply, insertError: Option<DbError>,
                                         writeError: Option<DbError>, now: string)

  /** The page's new state and the working-days hook's step. */
  datatype DaysOutcome = DaysOutcome(page: PageState, step: WorkingDaysHook.Step)

  /** The page's new state and the settings hook's step. */
  datatype SettingsOutcome = SettingsOutcome(page: PageState, step: SettingsHook.Step)

  /** The page's new state and both hooks' steps. */
  datatype PageStep = PageStep(page: PageState, days: WorkingDaysHook.Step, settings: SettingsHook.Step)

  /** Writing a list through the working-days hook, as written: the
    * optimistic copy is the new list whatever the hook did with it. */
  function PushDaysAsWritten(p: PageState, d: DaysState, userId: Option<string>, newDays: seq<WorkingDay>,
                             writeError: Option<DbError>): DaysOutcome
  {
    DaysOutcome(p.(optimisticDays := newDays), UpdateWorkingDays(d, userId, Some(newDays), writeError))
  }

  /** Writing a list through the working-days hook, reverting the optimistic
    * copy with `message` when the hook did not save the list. */
  function PushDays(p: PageState, d: DaysState, userId: Option<string>, newDays: seq<WorkingDay>,
                    writeError: Option<DbError>, message: string): DaysOutcome
  {
    var step := UpdateWorkingDays(d, userId, Some(newDays), writeError);
    if WorkingDaysHook.UpdateSaves(userId, Some(newDays), writeError) then DaysOutcome(p.(optimisticDays := newDays), step)
    else DaysOutcome(p.(optimisticDays := [], error := Some(message)), step)
  }

  /** The list a day edit sends: the shown list with the edit merged in. */
  function EditedDays(p: PageState, d: DaysState, dayOfWeek: string, u: DayPatch): seq<WorkingDay>
  {
    DayUpdated(DisplayDays(p.optimisticDays, d.workingDays), dayOfWeek, u)
  }

  /** A refused day edit: the message shown and the optimistic list dropped. */
  function RefusedEdit(p: PageState, d: DaysState): DaysOutcome
  {
    DaysOutcome(p.(error := Some(END_BEFORE_START), optimisticDays := [], isUpdating := false), WorkingDaysHook.Step(d, []))
  }

  /** handleWorkingDayUpdate as written (90-121). */
  function DayUpdateAsWritten(p: PageState, d: DaysState, userId: Option<string>, dayOfWeek: string, u: DayPatch,
                              writeError: Option<DbError>): DaysOutcome
  {
    if RejectsHours(u) then RefusedEdit(p, d)
    else
      var r := PushDaysAsWritten(p.(isUpdating := true, error := None), d, userId, EditedDays(p, d, dayOfWeek, u), writeError);
      r.(page := r.page.(isUpdating := false))
  }

  /** handleWorkingDayUpdate, reverting when the hook did not save. */
  function DayUpdate(p: PageState, d: DaysState, userId: Option<string>, dayOfWeek: string, u: DayPatch,
                     writeError: Option<DbError>): DaysOutcome
  {
    if RejectsHours(u) then RefusedEdit(p, d)
    else
      var r := PushDays(p.(isUpdating := true, error := None), d, userId, EditedDays(p, d, dayOfWeek, u), writeError, DAYS_FAILED);
      r.(page := r.page.(isUpdating := false))
  }

  /** handleSettingsUpdate as written (123-140): `{ ...settings, ...updates }`
    * goes to the hook; a saved value comes back through the effect on
    * `settings` (74-79). */
  function SettingsUpdateAsWritten(p: PageState, s: SettingsState, u: SettingsPatch, w: SettingsWrite): SettingsOutcome
  {
    var updated := Merge(s.settings, u);
    var step := UpdateSettings(s, w.userId, Whole(updated), w.fetch, w.insertError, w.writeError, w.now);
    var p' := p.(error := None, optimisticSettings := updated, isUpdating := false);
    if SettingsHook.UpdateSaves(w.userId, w.fetch, w.insertError, w.writeError) then SettingsOutcome(p'.(optimisticSettings := step.state.settings), step)
    else SettingsOutcome(p', step)
  }

  /** handleSettingsUpdate, reverting when the hook did not save. */
  function SettingsUpdate(p: PageState, s: SettingsState, u: SettingsPatch, w: SettingsWrite): SettingsOutcome
  {
    var updated := Merge(s.settings, u);
    var step := UpdateSettings(s, w.userId, Whole(updated), w.fetch, w.insertError, w.writeError, w.now);
    var p' := p.(error := None, optimisticSettings := updated, isUpdating := false);
    if SettingsHook.UpdateSaves(w.userId, w.fetch, w.insertError, w.writeError) then SettingsOutcome(p'.(optimisticSettings := step.state.settings), step)
    else SettingsOutcome(p'.(optimisticSettings := s.settings, error := Some(SETTINGS_FAILED)), step)
  }

  /** The effect on the hook's `settings` (74-79), which runs after the first
    * render and whenever the hook's settings change: the optimistic copy
    * becomes the hook's settings and the error is cleared. Afterwards the
    * page shows exactly what the hook holds. */
  function Synced(p: PageState, s: SettingsState): (r: PageState)
    ensures DisplaySettings(Whole(r.optimisticSettings), Whole(s.settings)) == s.settings
    ensures r.error.None?
    ensures r.optimisticDays == p.optimisticDays && r.newCategory == p.newCategory && r.isUpdating == p.isUpdating
  {
    p.(optimisticSettings := s.settings, error := None)
  }

  /** The settings a work-type change sends: the shown ones with the new type. */
  function WithWorkType(p: PageState, s: SettingsState, workType: string): SettingsPatch
  {
    Whole(DisplaySettings(Whole(p.optimisticSettings), Whole(s.settings)).(workType := workType))
  }

  /** handleWorkTypeChange (266-299): the settings with the new work type,
    * then the list reset for it. The two writes are taken in that order. */
  function WorkTypeChange(p: PageState, d: DaysState, s: SettingsState, workType: string, w: SettingsWrite,
                          daysError: Option<DbError>): PageStep
  {
    var r1 := SettingsUpdate(p.(isUpdating := true, error := None), s, WithWorkType(p, s, workType), w);
    var newDays := WorkTypeDays(DisplayDays(r1.page.optimisticDays, d.workingDays), workType);
    var r2 := PushDays(r1.page, d, w.userId, newDays, daysError, WORK_TYPE_FAILED);
    PageStep(r2.page.(isUpdating := false), r2.step, r1.step)
  }

  /** The categories addCategory sends. */
  function AddedPatch(p: PageState): SettingsPatch
  {
    SettingsPatch(None, None, Some(WithCategory(p.optimisticSettings.categories, p.newCategory)))
  }

  /** addCategory (214-228): a blank name does nothing. */
  function AddCategory(p: PageState, s: SettingsState, w: SettingsWrite): SettingsOutcome
  {
    if Trim(p.newCategory) == "" then SettingsOutcome(p, SettingsHook.Step(s, []))
    else
      var r := SettingsUpdate(p.(isUpdating := true, error := None), s, AddedPatch(p), w);
      r.(page := r.page.(newCategory := "", isUpdating := false))
  }

  /** The categories removeCategory sends. */
  function RemovedPatch(p: PageState, category: string): SettingsPatch
  {
    SettingsPatch(None, None, Some(WithoutCategory(p.optimisticSettings.categories, category)))
  }

  /** removeCategory (230-241). */
  function RemoveCategory(p: PageState, s: SettingsState, category: string, w: SettingsWrite): SettingsOutcome
  {
    var r := SettingsUpdate(p.(isUpdating := true, error := None), s, RemovedPatch(p, category), w);
    r.(page := r.page.(isUpdating := false))
  }

  // ---------------------------------------------------------------------
  // The page's state
  // ---------------------------------------------------------------------

  class Page {
    var optimisticDays: seq<WorkingDay>
    var optimisticSettings: Settings
    var error: Option<string>
    var isUpdating: bool
    var newCategory: string

    constructor ()
      ensures Snapshot() == INITIAL_PAGE
    {
      optimisticDays := [];
      optimisticSettings := PAGE_DEFAULTS;
      error := None;
      isUpdating := false;
      newCategory := "";
    }

    function Snapshot(): PageState
      reads this
    {
      PageState(optimisticDays, optimisticSettings, error, isUpdating, newCategory)
    }

    /** The effect that copies the settings hook's value into the page. */
    method SyncSettings(settings: SettingsHook.Hook)
      modifies this
      ensures Snapshot() == Synced(old(Snapshot()), settings.Snapshot())
    {
      optimisticSettings := settings.settings;
      error := None;
    }

    /** The input field's change handler (389-392). */
    method TypeCategory(text: string)
      modifies this
      ensures Snapshot() == old(Snapshot()).(newCategory := text, error := Some(""))
    {
      newCategory := text;
      error := Some("");
    }

    /** Sends a list to the working-days hook and reverts when it is not saved. */
    method SendDays(days: WorkingDaysHook.Hook, userId: Option<string>, newDays: seq<WorkingDay>,
                    writeError: Option<DbError>, message: string)
      returns (sent: seq<Request>)
      modifies this, days
      ensures var r := PushDays(old(Snapshot()), old(days.Snapshot()), userId, newDays, writeError, message);
              Snapshot() == r.page && days.Snapshot() == r.step.state && sent == r.step.sent
    {
      optimisticDays := newDays;
      sent := days.Update(userId, Some(newDays), writeError);
      if !WorkingDaysHook.UpdateSaves(userId, Some(newDays), writeError) {
        optimisticDays := [];
        error := Some(message);
      }
    }

    method HandleWorkingDayUpdate(days: WorkingDaysHook.Hook, userId: Option<string>, dayOfWeek: string, u: DayPatch,
                                  writeError: Option<DbError>)
      returns (sent: seq<Request>)
      modifies this, days
      ensures var r := DayUpdate(old(Snapshot()), old(days.Snapshot()), userId, dayOfWeek, u, writeError);
              Snapshot() == r.page && days.Snapshot() == r.step.state && sent == r.step.sent
    {
      if RejectsHours(u) {
        error := Some(END_BEFORE_START);
        optimisticDays := [];
        isUpdating := false;
        return [];
      }
      var newDays := EditedDays(Snapshot(), days.Snapshot(), dayOfWeek, u);
      isUpdating := true;
      error := None;
      sent := SendDays(days, userId, newDays, writeError, DAYS_FAILED);
      isUpdating := false;
    }

    method HandleSettingsUpdate(settings: SettingsHook.Hook, u: SettingsPatch, w: SettingsWrite)
      returns (sent: seq<Request>)
      modifies this, settings
      ensures var r := SettingsUpdate(old(Snapshot()), old(settings.Snapshot()), u, w);
              Snapshot() == r.page && settings.Snapshot() == r.step.state && sent == r.step.sent
    {
      isUpdating := true;
      error := None;
      var before := settings.settings;
      var updated := Merge(before, u);
      optimisticSettings := updated;
      sent := settings.Update(w.userId, Whole(updated), w.fetch, w.insertError, w.writeError, w.now);
      if SettingsHook.UpdateSaves(w.userId, w.fetch, w.insertError, w.writeError) {
        optimisticSettings := settings.settings;
      } else {
        optimisticSettings := before;
        error := Some(SETTINGS_FAILED);
      }
      isUpdating := false;
    }

    method HandleWorkTypeChange(days: WorkingDaysHook.Hook, settings: SettingsHook.Hook, workType: string,
                                w: SettingsWrite, daysError: Option<DbError>)
      returns (sentSettings: seq<Request>, sentDays: seq<Request>)
      modifies this, days, settings
      ensures var r := WorkTypeChange(old(Snapshot()), old(days.Snapshot()), old(settings.Snapshot()), workType, w, daysError);
              && Snapshot() == r.page && days.Snapshot() == r.days.state && settings.Snapshot() == r.settings.state
              && sentDays == r.days.sent && sentSettings == r.settings.sent
    {
      var patch := WithWorkType(Snapshot(), settings.Snapshot(), workType);
      isUpdating := true;
      error := None;
      sentSettings := HandleSettingsUpdate(settings, patch, w);
      var newDays := WorkTypeDays(DisplayDays(optimisticDays, days.workingDays), workType);
      sentDays := SendDays(days, w.userId, newDays, daysError, WORK_TYPE_FAILED);
      isUpdating := false;
    }

    method HandleAddCategory(settings: SettingsHook.Hook, w: SettingsWrite) returns (sent: seq<Request>)
      modifies this, settings
      ensures var r := AddCategory(old(Snapshot()), old(settings.Snapshot()), w);
              Snapshot() == r.page && settings.Snapshot() == r.step.state && sent == r.step.sent
    {
      if Trim(newCategory) == "" {
        return [];
      }
      var patch := AddedPatch(Snapshot());
      isUpdating := true;
      error := None;
      sent := HandleSettingsUpdate(settings, patch, w);
      newCategory := "";
      isUpdating := false;
    }

    method HandleRemoveCategory(settings: SettingsHook.Hook, category: string, w: SettingsWrite) returns (sent: seq<Request>)
      modifies this, settings
      ensures var r := RemoveCategory(old(Snapshot()), old(settings.Snapshot()), category, w);
              Snapshot() == r.page && settings.Snapshot() == r.step.state && sent == r.step.sent
    {
      var patch := RemovedPatch(Snapshot(), category);
      isUpdating := true;
      error := None;
      sent := HandleSettingsUpdate(settings, patch, w);
      isUpdating := false;
    }
  }

  // ---------------------------------------------------------------------
  // Properties of the handlers
  // ---------------------------------------------------------------------

  /** A day edit changes only the entries of that weekday and keeps the
    * list's length; a start hour not before the end hour is refused without
    * a write, clearing the optimistic list. */
  lemma DayUpdateEdits(p: PageState, d: DaysState, userId: Option<string>, dayOfWeek: string, u: DayPatch,
                       writeError: Option<DbError>)
    ensures var r := DayUpdate(p, d, userId, dayOfWeek, u, writeError);
            && !r.page.isUpdating
            && (RejectsHours(u) ==> r.step == WorkingDaysHook.Step(d, []) && r.page.optimisticDays == [] && r.page.error == Some(END_BEFORE_START))
            && (!RejectsHours(u) && WorkingDaysHook.UpdateSaves(userId, Some(EditedDays(p, d, dayOfWeek, u)), writeError) ==>
                  var shown := DisplayDays(p.optimisticDays, d.workingDays);
                  && |r.step.state.workingDays| == |shown|
                  && (forall i :: 0 <= i < |shown| && shown[i].dayOfWeek != dayOfWeek ==> r.step.state.workingDays[i] == shown[i])
                  && (forall i :: 0 <= i < |shown| && shown[i].dayOfWeek == dayOfWeek ==> r.step.state.workingDays[i] == Patched(shown[i], u)))
  {
    WorkingDaysHook.UpdateTakesEffectOnlyOnSuccess(d, userId, Some(EditedDays(p, d, dayOfWeek, u)), writeError);
  }

  /** After a day edit the page shows exactly the list the hook holds:
    * either it was saved, or the optimistic copy was dropped. */
  lemma DayUpdateShowsStoredDays(p: PageState, d: DaysState, userId: Option<string>, dayOfWeek: string, u: DayPatch,
                                 writeError: Option<DbError>)
    ensures var r := DayUpdate(p, d, userId, dayOfWeek, u, writeError);
            DisplayDays(r.page.optimisticDays, r.step.state.workingDays) == r.step.state.workingDays
  {
    WorkingDaysHook.UpdateTakesEffectOnlyOnSuccess(d, userId, Some(EditedDays(p, d, dayOfWeek, u)), writeError);
  }

  /** As written, a failed write leaves the unsaved list on screen: the
    * default week becomes a Monday off in the page while the hook still has
    * Monday worked, and no error is shown. */
  lemma FailedDayWriteStaysDisplayed(userId: string, e: DbError)
    requires userId != ""
    ensures var d := DaysState(DefaultWorkingDays(), false);
            var r := DayUpdateAsWritten(INITIAL_PAGE, d, Some(userId), "1", DayPatch(Some(false), None, None), Some(e));
            && r.step.state.workingDays == DefaultWorkingDays()
            && DisplayDays(r.page.optimisticDays, r.step.state.workingDays) != r.step.state.workingDays
            && r.page.error.None?
  {
    var d := DaysState(DefaultWorkingDays(), false);
    var u := DayPatch(Some(false), None, None);
    assert !RejectsHours(u);
    var newDays := EditedDays(INITIAL_PAGE, d, "1", u);
    assert DefaultWorkingDays()[1].dayOfWeek == "1";
    assert newDays[1].isWorkingDay == false;
    assert DefaultWorkingDays()[1].isWorkingDay;
  }

  /** After a settings change the page shows exactly what the hook holds,
    * and an error exactly when the hook did not save. */
  lemma SettingsUpdateShowsStored(p: PageState, s: SettingsState, u: SettingsPatch, w: SettingsWrite)
    ensures var r := SettingsUpdate(p, s, u, w);
            && r.page.optimisticSettings == r.step.state.settings
            && (SettingsHook.UpdateSaves(w.userId, w.fetch, w.insertError, w.writeError) <==> r.page.error.None?)
            && (SettingsHook.UpdateSaves(w.userId, w.fetch, w.insertError, w.writeError) ==> r.step.state.settings == Merge(s.settings, u))
  {
    var updated := Merge(s.settings, u);
    SettingsHook.UpdateSavesMerge(s, w.userId, Whole(updated), w.fetch, w.insertError, w.writeError, w.now);
    MergeProperties(MergeBase(w.fetch), Whole(updated), updated);
  }

  /** As written, a failed settings write leaves the unsaved settings on
    * screen with no error. */
  lemma FailedSettingsWriteStaysDisplayed(userId: string, e: DbError)
    requires userId != ""
    ensures var s := SettingsState(DEFAULT_SETTINGS, false, None);
            var w := SettingsWrite(Some(userId), SettingsReply(Some(DEFAULT_SETTINGS), None), None, Some(e), "now");
            var r := SettingsUpdateAsWritten(INITIAL_PAGE, s, SettingsPatch(Some(true), None, None), w);
            && r.step.state.settings == DEFAULT_SETTINGS
            && r.page.optimisticSettings != r.step.state.settings
            && r.page.error.None?
  {
  }

  /** A work-type change leaves the hook with its list or with the shown
    * list reset for the new type, and the page shows the list it holds. */
  lemma WorkTypeChangeShowsStored(p: PageState, d: DaysState, s: SettingsState, workType: string, w: SettingsWrite,
                                  daysError: Option<DbError>)
    ensures var r := WorkTypeChange(p, d, s, workType, w, daysError);
            && DisplayDays(r.page.optimisticDays, r.days.state.workingDays) == r.days.state.workingDays
            && (r.days.state.workingDays == d.workingDays
                || r.days.state.workingDays == WorkTypeDays(DisplayDays(p.optimisticDays, d.workingDays), workType))
            && r.page.optimisticSettings == r.settings.state.settings
            && !r.page.isUpdating
  {
    var r1 := SettingsUpdate(p.(isUpdating := true, error := None), s, WithWorkType(p, s, workType), w);
    SettingsUpdateShowsStored(p.(isUpdating := true, error := None), s, WithWorkType(p, s, workType), w);
    var newDays := WorkTypeDays(DisplayDays(r1.page.optimisticDays, d.workingDays), workType);
    WorkingDaysHook.UpdateTakesEffectOnlyOnSuccess(d, w.userId, Some(newDays), daysError);
  }

  /** Adding a blank name does nothing; otherwise the trimmed name is saved
    * at the end of the shown categories and the field is cleared. */
  lemma AddCategoryAppends(p: PageState, s: SettingsState, w: SettingsWrite)
    ensures Trim(p.newCategory) == "" ==> AddCategory(p, s, w) == SettingsOutcome(p, SettingsHook.Step(s, []))
    ensures Trim(p.newCategory) != "" ==>
              var r := AddCategory(p, s, w);
              && r.page.newCategory == ""
              && (SettingsHook.UpdateSaves(w.userId, w.fetch, w.insertError, w.writeError) ==>
                    r.step.state.settings.categories == p.optimisticSettings.categories + [Trim(p.newCategory)])
  {
    SettingsUpdateShowsStored(p.(isUpdating := true, error := None), s, AddedPatch(p), w);
  }

  /** Removing a category saves the shown list without it, the others in
    * order, and keeps the other settings. */
  lemma RemoveCategoryFilters(p: PageState, s: SettingsState, category: string, w: SettingsWrite)
    requires SettingsHook.UpdateSaves(w.userId, w.fetch, w.insertError, w.writeError)
    ensures var r := RemoveCategory(p, s, category, w);
            && r.step.state.settings.categories == WithoutCategory(p.optimisticSettings.categories, category)
            && category !in r.step.state.settings.categories
            && r.step.state.settings.militaryTime == s.settings.militaryTime
            && r.step.state.settings.workType == s.settings.workType
  {
    SettingsUpdateShowsStored(p.(isUpdating := true, error := None), s, RemovedPatch(p, category), w);
    WithoutCategoryKeepsOthers(p.optimisticSettings.categories, category);
  }

  /** Once the effect has run on the mounted page, the page shows the
    * hook's settings, whatever its own defaults were. */
  lemma MountedPageShowsStored(s: SettingsState)
    ensures Synced(INITIAL_PAGE, s).optimisticSettings == s.settings
    ensures s.settings != PAGE_DEFAULTS ==> Synced(INITIAL_PAGE, s) != INITIAL_PAGE
  {
  }

  /** After the effect, adding a name saves the hook's categories with the
    * trimmed name appended, and a blank name changes nothing. */
  lemma AddCategoryAfterSync(p: PageState, s: SettingsState, w: SettingsWrite)
    ensures var r := AddCategory(Synced(p, s), s, w);
            && (Trim(p.newCategory) == "" ==> r.step == SettingsHook.Step(s, []))
            && (Trim(p.newCategory) != "" && SettingsHook.UpdateSaves(w.userId, w.fetch, w.insertError, w.writeError) ==>
                  r.step.state.settings.categories == s.settings.categories + [Trim(p.newCategory)]
                  && r.page.optimisticSettings == r.step.state.settings)
  {
    var q := Synced(p, s);
    AddCategoryAppends(q, s, w);
    if Trim(p.newCategory) != "" {
      SettingsUpdateShowsStored(q.(isUpdating := true, error := None), s, AddedPatch(q), w);
    }
  }

  /** After the effect, removing a category saves the hook's categories
    * without it, the others in order. */
  lemma RemoveCategoryAfterSync(p: PageState, s: SettingsState, category: string, w: SettingsWrite)
    requires SettingsHook.UpdateSaves(w.userId, w.fetch, w.insertError, w.writeError)
    ensures var r := RemoveCategory(Synced(p, s), s, category, w);
            && r.step.state.settings.categories == WithoutCategory(s.settings.categories, category)
            && (forall c :: c in r.step.state.settings.categories <==> c in s.settings.categories && c != category)
  {
    RemoveCategoryFilters(Synced(p, s), s, category, w);
    WithoutCategoryKeepsOthers(s.settings.categories, category);
  }

  /** After the effect, a work-type change sends the hook's settings with
    * only the work type replaced. */
  lemma WorkTypeAfterSync(p: PageState, s: SettingsState, workType: string)
    ensures WithWorkType(Synced(p, s), s, workType) == Whole(s.settings.(workType := workType))
  {
  }
}
