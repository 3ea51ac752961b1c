/**
 * The zod schemas of the user profile (lib/validations/user-profile.ts),
 * as predicates over parsed JSON, and the two clock-time grammars used by
 * the application: the profile's `H:MM`/`HH:MM` grammar and the tRPC work
 * schedule's strict `HH:MM` grammar.
 *
 * A zod object schema accepts any object that has the listed keys with
 * values of the listed shapes; other keys are allowed (and dropped from the
 * parse result). Arrays and null are not objects.
 */
module ProfileValidation {
  import opened Common

  // ---------------------------------------------------------------------
  // Clock-time grammars
  // ---------------------------------------------------------------------

  /** The hour part of `^([0-1]?[0-9]|2[0-3])`. */
  predicate LooseHour(h: string)
  {
    (|h| == 1 && IsDigit(h[0]))
    || (|h| == 2 && '0' <= h[0] <= '1' && IsDigit(h[1]))
    || (|h| == 2 && h[0] == '2' && '0' <= h[1] <= '3')
  }

  /** The minutes part `[0-5][0-9]`. */
  predicate TwoDigitMinutes(m: string)
  {
    |m| == 2 && '0' <= m[0] <= '5' && IsDigit(m[1])
  }

  /** `/^([0-1]?[0-9]|2[0-3]):[0-5][0-9]$/`: the hour part is one or two
    * characters, so the colon is at index 1 or 2. */
  predicate MatchesProfileTime(s: string)
  {
    (|s| == 4 && LooseHour(s[..1]) && s[1] == ':' && TwoDigitMinutes(s[2..]))
    || (|s| == 5 && LooseHour(s[..2]) && s[2] == ':' && TwoDigitMinutes(s[3..]))
  }

  /** `/^([01]\d|2[0-3]):([0-5]\d)$/`. */
  predicate MatchesScheduleTime(s: string)
  {
    |s| == 5
    && (('0' <= s[0] <= '1' && IsDigit(s[1])) || (s[0] == '2' && '0' <= s[1] <= '3'))
    && s[2] == ':' && TwoDigitMinutes(s[3..])
  }

  /** The clock time h:m written with a two-digit hour, e.g. "09:05". */
  function ClockText(h: nat, m: nat): string
    requires h < 100 && m < 100
  {
    [DigitChar(h / 10), DigitChar(h % 10), ':', DigitChar(m / 10), DigitChar(m % 10)]
  }

  /** The clock time h:m written with a one-digit hour, e.g. "9:05". */
  function ShortClockText(h: nat, m: nat): string
    requires h < 10 && m < 100
  {
    [DigitChar(h), ':', DigitChar(m / 10), DigitChar(m % 10)]
  }

  /** `s` spells the time of day h:m. */
  predicate SpellsClockTime(s: string, h: nat, m: nat)
  {
    h < 24 && m < 60 && (s == ClockText(h, m) || (h < 10 && s == ShortClockText(h, m)))
  }

  lemma DigitCharOfValue(c: char)
    requires IsDigit(c)
    ensures DigitChar(DigitValue(c)) == c
  {
  }

  lemma ProfileTimeShortForm(s: string)
    requires |s| == 4 && MatchesProfileTime(s)
    ensures SpellsClockTime(s, DigitValue(s[0]), 10 * DigitValue(s[2]) + DigitValue(s[3]))
  {
    assert s[..1] == [s[0]];
    assert s[2..] == [s[2], s[3]];
    DigitCharOfValue(s[0]);
    DigitCharOfValue(s[2]);
    DigitCharOfValue(s[3]);
  }

  lemma ProfileTimeLongForm(s: string)
    requires |s| == 5 && MatchesProfileTime(s)
    ensures SpellsClockTime(s, 10 * DigitValue(s[0]) + DigitValue(s[1]), 10 * DigitValue(s[3]) + DigitValue(s[4]))
  {
    assert s[..2] == [s[0], s[1]];
    assert s[3..] == [s[3], s[4]];
    DigitCharOfValue(s[0]);
    DigitCharOfValue(s[1]);
    DigitCharOfValue(s[3]);
    DigitCharOfValue(s[4]);
  }

  lemma ClockTextMatchesProfileTime(h: nat, m: nat)
    requires h < 24 && m < 60
    ensures MatchesProfileTime(ClockText(h, m))
    ensures h < 10 ==> MatchesProfileTime(ShortClockText(h, m))
  {
    var s := ClockText(h, m);
    assert s[..2] == [DigitChar(h / 10), DigitChar(h % 10)];
    assert s[3..] == [DigitChar(m / 10), DigitChar(m % 10)];
    if h < 10 {
      var t := ShortClockText(h, m);
      assert t[..1] == [DigitChar(h)];
      assert t[2..] == [DigitChar(m / 10), DigitChar(m % 10)];
    }
  }

  /** The profile grammar accepts exactly the times of day 00:00-23:59,
    * written with one or two hour digits and two minute digits. */
  lemma ProfileTimeGrammar(s: string)
    ensures MatchesProfileTime(s) <==> exists h: nat, m: nat :: SpellsClockTime(s, h, m)
  {
    if MatchesProfileTime(s) {
      if |s| == 4 {
        ProfileTimeShortForm(s);
      } else {
        ProfileTimeLongForm(s);
      }
    }
    if exists h: nat, m: nat :: SpellsClockTime(s, h, m) {
      var h: nat, m: nat :| SpellsClockTime(s, h, m);
      ClockTextMatchesProfileTime(h, m);
    }
  }

  /** The work-schedule grammar accepts exactly the times of day
    * 00:00-23:59 written with two hour digits. */
  lemma ScheduleTimeGrammar(s: string)
    ensures MatchesScheduleTime(s) <==> exists h: nat, m: nat :: h < 24 && m < 60 && s == ClockText(h, m)
  {
    if MatchesScheduleTime(s) {
      var h := 10 * DigitValue(s[0]) + DigitValue(s[1]);
      var m := 10 * DigitValue(s[3]) + DigitValue(s[4]);
      DigitCharOfValue(s[0]);
      DigitCharOfValue(s[1]);
      DigitCharOfValue(s[3]);
      DigitCharOfValue(s[4]);
      assert s == ClockText(h, m);
    }
  }

  /** The strict grammar accepts a subset of the profile grammar. */
  lemma ScheduleTimeIsProfileTime(s: string)
    ensures MatchesScheduleTime(s) ==> MatchesProfileTime(s)
  {
    if MatchesScheduleTime(s) {
      assert s[..2] == [s[0], s[1]];
      assert s[3..] == [s[3], s[4]];
    }
  }

  /** "9:05" passes the profile grammar and fails the schedule grammar;
    * "24:00" and "12:60" fail both. */
  lemma TimeGrammarExamples()
    ensures MatchesProfileTime("9:05") && !MatchesScheduleTime("9:05")
    ensures MatchesProfileTime("09:05") && MatchesScheduleTime("09:05")
    ensures !MatchesProfileTime("24:00") && !MatchesScheduleTime("24:00")
    ensures !MatchesProfileTime("12:60") && !MatchesScheduleTime("12:60")
  {
    assert "9:05"[..1] == "9" && "9:05"[2..] == "05";
    assert "09:05"[..2] == "09" && "09:05"[3..] == "05";
    assert "24:00"[..2] == "24";
    assert "12:60"[3..] == "60";
  }

  // ---------------------------------------------------------------------
  // Schemas
  // ---------------------------------------------------------------------

  /** The value under `key` of an object, when it is there. */
  predicate HasField(j: Json, key: string)
  {
    j.JObj? && key in j.fields
  }

  /** `z.string().regex(timeRegex)`. */
  predicate ValidTime(j: Json)
  {
    j.JStr? && MatchesProfileTime(j.s)
  }

  /** workingDaySchema: `{ start, end: time; isWorkingDay: boolean }`. */
  predicate ValidWorkingDay(j: Json)
  {
    HasField(j, "start") && ValidTime(j.fields["start"])
    && HasField(j, "end") && ValidTime(j.fields["end"])
    && HasField(j, "isWorkingDay") && j.fields["isWorkingDay"].JBool?
  }

  const WEEKDAYS: seq<string> := ["monday", "tuesday", "wednesday", "thursday", "friday", "saturday", "sunday"]

  /** workingDaysSchema: one valid working day under each weekday name. */
  predicate ValidWorkingDays(j: Json)
  {
    j.JObj? && forall d :: d in WEEKDAYS ==> HasField(j, d) && ValidWorkingDay(j.fields[d])
  }

  const WORK_TYPES: set<string> := {"full-time", "part-time", "freelance", "student"}

  /** `z.array(z.string()).min(1)`. */
  predicate NonEmptyStringArray(j: Json)
  {
    j.JArr? && |j.items| >= 1 && forall i :: 0 <= i < |j.items| ==> j.items[i].JStr?
  }

  /** userSettingsSchema. */
  predicate ValidSettings(j: Json)
  {
    HasField(j, "militaryTime") && j.fields["militaryTime"].JBool?
    && HasField(j, "workType") && j.fields["workType"].JStr? && j.fields["workType"].s in WORK_TYPES
    && HasField(j, "categories") && NonEmptyStringArray(j.fields["categories"])
  }

  /** userProfileSchema. The e-mail and ISO date-time formats are decided by
    * the given predicates (zod's `.email()` and `.datetime()`). */
  predicate ValidProfile(j: Json, isEmail: string -> bool, isDatetime: string -> bool)
  {
    HasField(j, "user_id") && j.fields["user_id"].JStr?
    && HasField(j, "email") && j.fields["email"].JStr? && isEmail(j.fields["email"].s)
    && HasField(j, "settings") && ValidSettings(j.fields["settings"])
    && HasField(j, "working_days") && ValidWorkingDays(j.fields["working_days"])
    && HasField(j, "created_at") && j.fields["created_at"].JStr? && isDatetime(j.fields["created_at"].s)
    && HasField(j, "updated_at") && j.fields["updated_at"].JStr? && isDatetime(j.fields["updated_at"].s)
  }

  /** A working day whose start is after its end is still valid: the schema
    * does not compare the two times. */
  lemma WorkingDayOrderNotChecked()
    ensures ValidWorkingDay(JObj(map["start" := JStr("17:00"), "end" := JStr("09:00"), "isWorkingDay" := JBool(true)]))
  {
    assert "17:00"[..2] == "17" && "17:00"[3..] == "00";
    assert "09:00"[..2] == "09" && "09:00"[3..] == "00";
  }

  /** A record missing one weekday is rejected, whatever the other six hold. */
  lemma WorkingDaysNeedEveryWeekday(j: Json, d: string)
    requires d in WEEKDAYS && j.JObj? && d !in j.fields
    ensures !ValidWorkingDays(j)
  {
  }

  /** Valid settings have at least one category and one of the four work
    * types; an empty category list is rejected. */
  lemma SettingsValidityConditions(j: Json)
    ensures ValidSettings(j) ==> |j.fields["categories"].items| >= 1 && j.fields["workType"].s in WORK_TYPES
    ensures HasField(j, "categories") && j.fields["categories"] == JArr([]) ==> !ValidSettings(j)
  {
  }

  /** A profile can be valid only when its settings and working days are. */
  lemma ProfileNeedsValidParts(j: Json, isEmail: string -> bool, isDatetime: string -> bool)
    requires ValidProfile(j, isEmail, isDatetime)
    ensures ValidSettings(j.fields["settings"]) && ValidWorkingDays(j.fields["working_days"])
    ensures isEmail(j.fields["email"].s)
  {
  }
}
