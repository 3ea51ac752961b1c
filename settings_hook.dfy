/**
 * The settings hook (hooks/useSettings.ts): the signed-in user's settings
 * (24-hour clock, work type, task categories), loaded from their
 * `user_profiles` row, replaced by realtime changes, and updated by
 * `updateSettings`, which merges the new values over the stored ones and
 * creates the row first when there is none.
 *
 * As in the working-days hook, the state is a class, the database is an
 * oracle, and each operation is a function of the state before it.
 */
module SettingsHook {
  import opened Common
  import opened Supabase
  import WorkingDaysHook

  /** UserSettings. A stored value is always complete: a stored row that
    * lacks one of the three keys is not represented. */
  datatype Settings = Settings(militaryTime: bool, workType: string, categories: seq<string>)

  /** `Partial<UserSettings>`: a key that is absent is None. */
  datatype SettingsPatch = SettingsPatch(militaryTime: Option<bool>, workType: Option<string>, categories: Option<seq<string>>)

  /** DEFAULT_SETTINGS (8-12). */
  const DEFAULT_SETTINGS := Settings(false, "full-time", ["Work", "Personal", "Errands"])

  /** A whole settings value, as a patch giving every key. */
  function Whole(s: Settings): SettingsPatch
  {
    SettingsPatch(Some(s.militaryTime), Some(s.workType), Some(s.categories))
  }

  function OrElse<T>(o: Option<T>, d: T): T
  {
    if o.Some? then o.value else d
  }

  /** `{ ...current, ...patch }`. */
  function Merge(current: Settings, patch: SettingsPatch): Settings
  {
    Settings(OrElse(patch.militaryTime, current.militaryTime),
             OrElse(patch.workType, current.workType),
             OrElse(patch.categories, current.categories))
  }

  // ---------------------------------------------------------------------
  // Stored form
  // ---------------------------------------------------------------------

  function StringsJson(xs: seq<string>): Json
  {
    JArr(seq(|xs|, i requires 0 <= i < |xs| => JStr(xs[i])))
  }

  /** The `settings` column: an object with the three keys. */
  function SettingsFields(s: Settings): map<string, Json>
  {
    map["militaryTime" := JBool(s.militaryTime), "workType" := JStr(s.workType), "categories" := StringsJson(s.categories)]
  }

  /** The keys a patch gives, with their values. */
  function PatchFields(p: SettingsPatch): (m: map<string, Json>)
    ensures m.Keys <= SettingsFields(DEFAULT_SETTINGS).Keys
  {
    (if p.militaryTime.Some? then map["militaryTime" := JBool(p.militaryTime.value)] else map[])
    + (if p.workType.Some? then map["workType" := JStr(p.workType.value)] else map[])
    + (if p.categories.Some? then map["categories" := StringsJson(p.categories.value)] else map[])
  }

  /** Merging is the object spread of the stored forms: the patch's keys win
    * and the other keys keep the current values. */
  lemma MergeIsSpread(current: Settings, patch: SettingsPatch)
    ensures SettingsFields(Merge(current, patch)) == Overlay(SettingsFields(current), PatchFields(patch))
  {
    var l := SettingsFields(Merge(current, patch));
    var p := PatchFields(patch);
    var r := Overlay(SettingsFields(current), p);
    PatchFieldsAt(patch);
    assert l.Keys == r.Keys;
    assert l["militaryTime"] == r["militaryTime"];
    assert l["workType"] == r["workType"];
    assert l["categories"] == r["categories"];
  }

  /** The keys of a patch's stored form and their values. */
  lemma PatchFieldsAt(patch: SettingsPatch)
    ensures var p := PatchFields(patch);
            && ("militaryTime" in p <==> patch.militaryTime.Some?)
            && ("workType" in p <==> patch.workType.Some?)
            && ("categories" in p <==> patch.categories.Some?)
            && (patch.militaryTime.Some? ==> p["militaryTime"] == JBool(patch.militaryTime.value))
            && (patch.workType.Some? ==> p["workType"] == JStr(patch.workType.value))
            && (patch.categories.Some? ==> p["categories"] == StringsJson(patch.categories.value))
  {
  }

  /** Merging a whole value gives that value, an empty patch keeps the
    * current one, and merging twice is merging once. */
  lemma MergeProperties(current: Settings, patch: SettingsPatch, s: Settings)
    ensures Merge(current, Whole(s)) == s
    ensures Merge(current, SettingsPatch(None, None, None)) == current
    ensures Merge(Merge(current, patch), patch) == Merge(current, patch)
  {
  }

  /** The user's row, by Clerk id. */
  function OwnRow(userId: string): seq<Filter>
  {
    [Eq("clerk_id", JStr(userId))]
  }

  function ReadSettings(userId: string, columns: string): Request
  {
    Read(Select("user_profiles", columns, OwnRow(userId), None, None, None))
  }

  /** The row updateSettings creates when there is none (137-153): the
    * default settings and the default week. */
  function CreateProfile(userId: string): Request
  {
    Insert("user_profiles", [map["clerk_id" := JStr(userId),
                                 "settings" := JObj(SettingsFields(DEFAULT_SETTINGS)),
                                 "working_days" := WorkingDaysHook.DaysJson(WorkingDaysHook.DefaultWorkingDays())]])
  }

  /** `.update({ settings, updated_at }).eq('clerk_id', userId)`. */
  function WriteSettings(userId: string, s: Settings, now: string): Request
  {
    Update("user_profiles", map["settings" := JObj(SettingsFields(s)), "updated_at" := JStr(now)], OwnRow(userId))
  }

  // ---------------------------------------------------------------------
  // The hook as functions of its state
  // ---------------------------------------------------------------------

  datatype SettingsState = SettingsState(settings: Settings, loading: bool, error: Option<DbError>)

  /** The state a fresh hook starts in (18-20). */
  const INITIAL := SettingsState(DEFAULT_SETTINGS, true, None)

  datatype Step = Step(state: SettingsState, sent: seq<Request>)

  /** The stored settings (None for a null column), or the read's error. */
  datatype SettingsReply = SettingsReply(settings: Option<Settings>, error: Option<DbError>)

  /** The settings a update merges over: the defaults when there was no row
    * or the row has none. */
  function MergeBase(fetch: SettingsReply): Settings
  {
    if fetch.error.Some? then DEFAULT_SETTINGS else OrElse(fetch.settings, DEFAULT_SETTINGS)
  }

  /** updateSettings (114-200). */
  function UpdateSettings(s: SettingsState, userId: Option<string>, patch: SettingsPatch, fetch: SettingsReply,
                          insertError: Option<DbError>, writeError: Option<DbError>, now: string): Step
  {
    if !SignedIn(userId) then Step(s, [])
    else
      var read := ReadSettings(userId.value, "settings");
      if fetch.error.Some? && fetch.error.value.code != NOT_FOUND_CODE then Step(s.(loading := false), [read])
      else if fetch.error.Some? && insertError.Some? then Step(s.(loading := false), [read, CreateProfile(userId.value)])
      else
        var before := if fetch.error.Some? then [read, CreateProfile(userId.value)] else [read];
        var updated := Merge(MergeBase(fetch), patch);
        var write := WriteSettings(userId.value, updated, now);
        if writeError.Some? then Step(s.(loading := false), before + [write])
        else Step(s.(settings := updated, loading := false), before + [write])
  }

  /** The load effect (22-85). A missing row is read once more (the
    * two-second wait is not modelled); a row without settings gives the
    * defaults; a failure is kept in `error` and leaves the settings. */
  function Load(s: SettingsState, clerkLoaded: bool, userId: Option<string>, hasSession: bool,
                fetch: SettingsReply, retry: SettingsReply): Step
  {
    if !clerkLoaded then Step(s, [])
    else if !SignedIn(userId) || !hasSession then Step(s.(loading := false), [])
    else
      var read := ReadSettings(userId.value, "settings, id");
      if fetch.error.None? then Step(SettingsState(OrElse(fetch.settings, DEFAULT_SETTINGS), false, None), [read])
      else if fetch.error.value.code != NOT_FOUND_CODE then Step(s.(loading := false, error := fetch.error), [read])
      else if retry.error.Some? then Step(s.(loading := false, error := retry.error), [read, read])
      else Step(SettingsState(OrElse(retry.settings, DEFAULT_SETTINGS), false, None), [read, read])
  }

  /** A realtime change (98-105): the new row's settings, when it has them. */
  function OnChange(s: SettingsState, newSettings: Option<Settings>): SettingsState
  {
    if newSettings.Some? then s.(settings := newSettings.value, error := None) else s
  }

  // ---------------------------------------------------------------------
  // The hook's state
  // ---------------------------------------------------------------------

  class Hook {
    var settings: Settings
    var loading: bool
    var error: Option<DbError>

    constructor ()
      ensures Snapshot() == INITIAL
    {
      settings := DEFAULT_SETTINGS;
      loading := true;
      error := None;
    }

    function Snapshot(): SettingsState
      reads this
    {
      SettingsState(settings, loading, error)
    }

    method Update(userId: Option<string>, patch: SettingsPatch, fetch: SettingsReply,
                  insertError: Option<DbError>, writeError: Option<DbError>, now: string)
      returns (sent: seq<Request>)
      modifies this
      ensures Step(Snapshot(), sent) == UpdateSettings(old(Snapshot()), userId, patch, fetch, insertError, writeError, now)
    {
      sent := [];
      if !SignedIn(userId) {
        return;
      }
      loading := true;
      var current := DEFAULT_SETTINGS;
      sent := [ReadSettings(userId.value, "settings")];
      if fetch.error.Some? {
        if fetch.error.value.code == NOT_FOUND_CODE {
          sent := sent + [CreateProfile(userId.value)];
          if insertError.Some? {
            loading := false;
            return;
          }
        } else {
          loading := false;
          return;
        }
      } else {
        current := OrElse(fetch.settings, DEFAULT_SETTINGS);
      }
      var updated := Merge(current, patch);
      sent := sent + [WriteSettings(userId.value, updated, now)];
      if writeError.None? {
        settings := updated;
      }
      loading := false;
    }

    method Fetch(clerkLoaded: bool, userId: Option<string>, hasSession: bool, fetch: SettingsReply, retry: SettingsReply)
      returns (sent: seq<Request>)
      modifies this
      ensures Step(Snapshot(), sent) == Load(old(Snapshot()), clerkLoaded, userId, hasSession, fetch, retry)
    {
      sent := [];
      if !clerkLoaded {
        return;
      }
      if !SignedIn(userId) || !hasSession {
        loading := false;
        return;
      }
      var read := ReadSettings(userId.value, "settings, id");
      sent := [read];
      var found := fetch;
      if fetch.error.Some? {
        if fetch.error.value.code != NOT_FOUND_CODE {
          error := fetch.error;
          loading := false;
          return;
        }
        sent := sent + [read];
        found := retry;
        if retry.error.Some? {
          error := retry.error;
          loading := false;
          return;
        }
      }
      settings := OrElse(found.settings, DEFAULT_SETTINGS);
      error := None;
      loading := false;
    }

    method Changed(newSettings: Option<Settings>)
      modifies this
      ensures Snapshot() == OnChange(old(Snapshot()), newSettings)
    {
      if newSettings.Some? {
        settings := newSettings.value;
        error := None;
      }
    }
  }

  // ---------------------------------------------------------------------
  // Properties
  // ---------------------------------------------------------------------

  /** Without a user id an update sends nothing and changes nothing. */
  lemma UpdateWithoutUser(s: SettingsState, userId: Option<string>, patch: SettingsPatch, fetch: SettingsReply,
                          insertError: Option<DbError>, writeError: Option<DbError>, now: string)
    requires !SignedIn(userId)
    ensures UpdateSettings(s, userId, patch, fetch, insertError, writeError, now) == Step(s, [])
  {
  }

  /** The written settings are the stored ones (or the defaults) overlaid
    * with the patch, and become the state only when the write worked. Any
    * failure leaves the settings, and no update touches `error`. */
  lemma UpdateWritesMerge(s: SettingsState, userId: Option<string>, patch: SettingsPatch, fetch: SettingsReply,
                          insertError: Option<DbError>, writeError: Option<DbError>, now: string)
    requires SignedIn(userId)
    ensures var r := UpdateSettings(s, userId, patch, fetch, insertError, writeError, now);
            var written := Merge(MergeBase(fetch), patch);
            && r.state.error == s.error && !r.state.loading
            && r.sent[0] == ReadSettings(userId.value, "settings")
            && (r.state.settings != s.settings ==> r.state.settings == written && writeError.None?)
            && (fetch.error.None? || (fetch.error.value.code == NOT_FOUND_CODE && insertError.None?) ==>
                  r.sent[|r.sent| - 1] == WriteSettings(userId.value, written, now)
                  && SettingsFields(written) == Overlay(SettingsFields(MergeBase(fetch)), PatchFields(patch))
                  && r.state.settings == (if writeError.None? then written else s.settings))
            && (fetch.error.Some? && fetch.error.value.code != NOT_FOUND_CODE ==> |r.sent| == 1 && r.state.settings == s.settings)
  {
    MergeIsSpread(MergeBase(fetch), patch);
  }

  /** The update saves the merged settings: a user is signed in, the row
    * was read or created, and the write reported no error. */
  predicate UpdateSaves(userId: Option<string>, fetch: SettingsReply, insertError: Option<DbError>, writeError: Option<DbError>)
  {
    SignedIn(userId) && (fetch.error.None? || (fetch.error.value.code == NOT_FOUND_CODE && insertError.None?)) && writeError.None?
  }

  /** The settings become the merge exactly when the update saves it. */
  lemma UpdateSavesMerge(s: SettingsState, userId: Option<string>, patch: SettingsPatch, fetch: SettingsReply,
                         insertError: Option<DbError>, writeError: Option<DbError>, now: string)
    ensures var r := UpdateSettings(s, userId, patch, fetch, insertError, writeError, now);
            && (UpdateSaves(userId, fetch, insertError, writeError) ==> r.state.settings == Merge(MergeBase(fetch), patch))
            && (!UpdateSaves(userId, fetch, insertError, writeError) ==> r.state.settings == s.settings)
  {
  }

  /** A missing row is created with the default settings and the default
    * week before the write, and the merge is then over the defaults. */
  lemma UpdateCreatesMissingProfile(s: SettingsState, userId: Option<string>, patch: SettingsPatch, fetch: SettingsReply,
                                    insertError: Option<DbError>, writeError: Option<DbError>, now: string)
    requires SignedIn(userId) && fetch.error.Some? && fetch.error.value.code == NOT_FOUND_CODE
    ensures var r := UpdateSettings(s, userId, patch, fetch, insertError, writeError, now);
            && r.sent[1] == CreateProfile(userId.value)
            && r.sent[1].rows[0]["settings"] == JObj(SettingsFields(DEFAULT_SETTINGS))
            && r.sent[1].rows[0]["working_days"] == WorkingDaysHook.DaysJson(WorkingDaysHook.DefaultWorkingDays())
            && (insertError.Some? ==> |r.sent| == 2 && r.state.settings == s.settings)
            && (insertError.None? && writeError.None? ==> r.state.settings == Merge(DEFAULT_SETTINGS, patch))
  {
  }

  /** Loading falls back to the defaults when the row has no settings,
    * reads once more when there is no row, and records a failure without
    * changing the settings. */
  lemma LoadFallbacks(s: SettingsState, userId: Option<string>, fetch: SettingsReply, retry: SettingsReply)
    requires SignedIn(userId)
    ensures var r := Load(s, true, userId, true, fetch, retry);
            && !r.state.loading
            && (fetch.error.None? ==> r.state == SettingsState(OrElse(fetch.settings, DEFAULT_SETTINGS), false, None) && |r.sent| == 1)
            && (fetch.error.Some? && fetch.error.value.code == NOT_FOUND_CODE ==>
                  |r.sent| == 2 && r.sent[0] == r.sent[1]
                  && (retry.error.None? ==> r.state.settings == OrElse(retry.settings, DEFAULT_SETTINGS) && r.state.error.None?)
                  && (retry.error.Some? ==> r.state.settings == s.settings && r.state.error == retry.error))
            && (fetch.error.Some? && fetch.error.value.code != NOT_FOUND_CODE ==>
                  |r.sent| == 1 && r.state.settings == s.settings && r.state.error == fetch.error)
  {
  }

  /** A realtime change replaces the settings and clears the error only when
    * it carries settings. */
  lemma OnChangeReplaces(s: SettingsState, newSettings: Option<Settings>)
    ensures newSettings.Some? ==> OnChange(s, newSettings) == SettingsState(newSettings.value, s.loading, None)
    ensures newSettings.None? ==> OnChange(s, newSettings) == s
  {
  }
}
