/**
 * The working-days hook (hooks/useWorkingDays.ts): the signed-in user's
 * seven working days, loaded from their `user_profiles` row (created with
 * the default week when there is none), replaced by realtime changes, and
 * written back by `updateWorkingDays`.
 *
 * The hook's React state is a class; the database is an oracle whose replies
 * are parameters, and each operation returns the requests it sent. Every
 * operation is also a function of the state before it, and the lemmas are
 * about those functions.
 */
module WorkingDaysHook {
  import opened Common
  import opened Supabase

  /** WorkingDay: a weekday '0' (Sunday) to '6', its hours as "HH:MM" text,
    * and whether it is worked. */
  datatype WorkingDay = WorkingDay(dayOfWeek: string, startTime: string, endTime: string, isWorkingDay: bool)

  /** DEFAULT_WORKING_DAYS (8-16): the week, Monday to Friday worked,
    * every day 09:00 to 17:00. */
  function DefaultWorkingDays(): (d: seq<WorkingDay>)
    ensures |d| == 7
    ensures forall i :: 0 <= i < 7 ==> d[i].dayOfWeek == [DigitChar(i)]
    ensures forall i :: 0 <= i < 7 ==> (d[i].isWorkingDay <==> 1 <= i <= 5)
    ensures forall i :: 0 <= i < 7 ==> d[i].startTime == "09:00" && d[i].endTime == "17:00"
  {
    [ WorkingDay("0", "09:00", "17:00", false),
      WorkingDay("1", "09:00", "17:00", true),
      WorkingDay("2", "09:00", "17:00", true),
      WorkingDay("3", "09:00", "17:00", true),
      WorkingDay("4", "09:00", "17:00", true),
      WorkingDay("5", "09:00", "17:00", true),
      WorkingDay("6", "09:00", "17:00", false) ]
  }

  /** How a working day is stored in the `working_days` column. */
  function DayJson(d: WorkingDay): Json
  {
    JObj(map["dayOfWeek" := JStr(d.dayOfWeek), "startTime" := JStr(d.startTime),
             "endTime" := JStr(d.endTime), "isWorkingDay" := JBool(d.isWorkingDay)])
  }

  function DaysJson(days: seq<WorkingDay>): (j: Json)
    ensures j.JArr? && |j.items| == |days|
    ensures forall i :: 0 <= i < |days| ==> j.items[i] == DayJson(days[i])
  {
    JArr(seq(|days|, i requires 0 <= i < |days| => DayJson(days[i])))
  }

  /** Reading a stored working day back gives the day. */
  function DayOfJson(j: Json): (r: Option<WorkingDay>)
  {
    if j.JObj? && "dayOfWeek" in j.fields && j.fields["dayOfWeek"].JStr?
       && "startTime" in j.fields && j.fields["startTime"].JStr?
       && "endTime" in j.fields && j.fields["endTime"].JStr?
       && "isWorkingDay" in j.fields && j.fields["isWorkingDay"].JBool?
    then Some(WorkingDay(j.fields["dayOfWeek"].s, j.fields["startTime"].s, j.fields["endTime"].s, j.fields["isWorkingDay"].b))
    else None
  }

  lemma DayJsonRoundTrip(d: WorkingDay)
    ensures DayOfJson(DayJson(d)) == Some(d)
  {
  }

  /** Different lists are stored as different values. */
  lemma DaysJsonInjective(a: seq<WorkingDay>, b: seq<WorkingDay>)
    requires DaysJson(a) == DaysJson(b)
    ensures a == b
  {
    assert |a| == |b|;
    forall i | 0 <= i < |a|
      ensures a[i] == b[i]
    {
      DayJsonRoundTrip(a[i]);
      DayJsonRoundTrip(b[i]);
      assert DayJson(a[i]) == DaysJson(a).items[i] == DayJson(b[i]);
    }
  }

  /** The user's row, by Clerk id. */
  function OwnRow(userId: string): seq<Filter>
  {
    [Eq("clerk_id", JStr(userId))]
  }

  /** `.update({ working_days }).eq('clerk_id', userId)`. */
  function WriteDays(userId: string, days: seq<WorkingDay>): Request
  {
    Update("user_profiles", map["working_days" := DaysJson(days)], OwnRow(userId))
  }

  /** `.insert({ clerk_id, working_days: DEFAULT_WORKING_DAYS })`. */
  function CreateDefaultRow(userId: string): Request
  {
    Insert("user_profiles", [map["clerk_id" := JStr(userId), "working_days" := DaysJson(DefaultWorkingDays())]])
  }

  function ReadDays(userId: string): Request
  {
    Read(Select("user_profiles", "working_days", OwnRow(userId), None, None, None))
  }

  // ---------------------------------------------------------------------
  // The hook as functions of its state
  // ---------------------------------------------------------------------

  datatype DaysState = DaysState(workingDays: seq<WorkingDay>, loading: bool)

  /** The state a fresh hook starts in (21-22). */
  const INITIAL := DaysState([], true)

  /** A step's new state and the requests it sent. */
  datatype Step = Step(state: DaysState, sent: seq<Request>)

  /** The working-days list handed to updateWorkingDays, or None when the
    * value is not an array. */
  type DaysArg = Option<seq<WorkingDay>>

  /** updateWorkingDays (96-125). Without a user nothing happens; a value
    * that is not a list of seven is rejected before any write; the new list
    * becomes the state only when the write reports no error. */
  function UpdateWorkingDays(s: DaysState, userId: Option<string>, newDays: DaysArg, writeError: Option<DbError>): Step
  {
    if !SignedIn(userId) then Step(s, [])
    else if newDays.None? || |newDays.value| != 7 then Step(s.(loading := false), [])
    else if writeError.Some? then Step(s.(loading := false), [WriteDays(userId.value, newDays.value)])
    else Step(DaysState(newDays.value, false), [WriteDays(userId.value, newDays.value)])
  }

  /** The stored list, or the error of a `.single()` read of it. */
  datatype DaysReply = DaysReply(days: seq<WorkingDay>, error: Option<DbError>)

  /** The load effect (24-67): nothing before Clerk has loaded, loading
    * ends without a user; otherwise the stored list, or the defaults after
    * creating a row when there was none. A failure leaves the list alone. */
  function Load(s: DaysState, clerkLoaded: bool, userId: Option<string>, fetch: DaysReply, createError: Option<DbError>): Step
  {
    if !clerkLoaded then Step(s, [])
    else if !SignedIn(userId) then Step(s.(loading := false), [])
    else
      var read := ReadDays(userId.value);
      if fetch.error.None? then Step(DaysState(fetch.days, false), [read])
      else if fetch.error.value.code != NOT_FOUND_CODE then Step(s.(loading := false), [read])
      else if createError.Some? then Step(s.(loading := false), [read, CreateDefaultRow(userId.value)])
      else Step(DaysState(DefaultWorkingDays(), false), [read, CreateDefaultRow(userId.value)])
  }

  /** A realtime change (80-87): `working_days` of the new row, when the
    * payload has one. */
  function OnChange(s: DaysState, newWorkingDays: Option<seq<WorkingDay>>): DaysState
  {
    if newWorkingDays.Some? then s.(workingDays := newWorkingDays.value) else s
  }

  /** The hook's `loading` result (127-131). */
  function Loading(s: DaysState, clerkLoaded: bool): bool
  {
    s.loading || !clerkLoaded
  }

  // ---------------------------------------------------------------------
  // The hook's state
  // ---------------------------------------------------------------------

  class Hook {
    var workingDays: seq<WorkingDay>
    var loading: bool

    constructor ()
      ensures Snapshot() == INITIAL
    {
      workingDays := [];
      loading := true;
    }

    function Snapshot(): DaysState
      reads this
    {
      DaysState(workingDays, loading)
    }

    method Update(userId: Option<string>, newDays: DaysArg, writeError: Option<DbError>) returns (sent: seq<Request>)
      modifies this
      ensures Step(Snapshot(), sent) == UpdateWorkingDays(old(Snapshot()), userId, newDays, writeError)
    {
      sent := [];
      if !SignedIn(userId) {
        return;
      }
      loading := true;
      if newDays.None? || |newDays.value| != 7 {
        loading := false;
        return;
      }
      sent := [WriteDays(userId.value, newDays.value)];
      if writeError.None? {
        workingDays := newDays.value;
      }
      loading := false;
    }

    method Fetch(clerkLoaded: bool, userId: Option<string>, fetch: DaysReply, createError: Option<DbError>)
      returns (sent: seq<Request>)
      modifies this
      ensures Step(Snapshot(), sent) == Load(old(Snapshot()), clerkLoaded, userId, fetch, createError)
    {
      sent := [];
      if !clerkLoaded {
        return;
      }
      if !SignedIn(userId) {
        loading := false;
        return;
      }
      loading := true;
      sent := [ReadDays(userId.value)];
      if fetch.error.None? {
        workingDays := fetch.days;
      } else if fetch.error.value.code == NOT_FOUND_CODE {
        sent := sent + [CreateDefaultRow(userId.value)];
        if createError.None? {
          workingDays := DefaultWorkingDays();
        }
      }
      loading := false;
    }

    method Changed(newWorkingDays: Option<seq<WorkingDay>>)
      modifies this
      ensures Snapshot() == OnChange(old(Snapshot()), newWorkingDays)
    {
      if newWorkingDays.Some? {
        workingDays := newWorkingDays.value;
      }
    }
  }

  // ---------------------------------------------------------------------
  // Properties
  // ---------------------------------------------------------------------

  /** Without a signed-in user an update changes nothing and sends nothing. */
  lemma UpdateWithoutUser(s: DaysState, userId: Option<string>, newDays: DaysArg, writeError: Option<DbError>)
    requires !SignedIn(userId)
    ensures UpdateWorkingDays(s, userId, newDays, writeError) == Step(s, [])
  {
  }

  /** A value that is not a list of seven days is not written, and the list
    * is unchanged. */
  lemma UpdateRejectsMalformed(s: DaysState, userId: Option<string>, newDays: DaysArg, writeError: Option<DbError>)
    requires newDays.None? || |newDays.value| != 7
    ensures var r := UpdateWorkingDays(s, userId, newDays, writeError);
            r.sent == [] && r.state.workingDays == s.workingDays
  {
  }

  /** The update saves the list: a user is signed in, the list has seven
    * days and the write reported no error. */
  predicate UpdateSaves(userId: Option<string>, newDays: DaysArg, writeError: Option<DbError>)
  {
    SignedIn(userId) && newDays.Some? && |newDays.value| == 7 && writeError.None?
  }

  /** The list becomes the new one when the update saves it and is
    * otherwise unchanged; the write is sent exactly when a user is signed in
    * and the list has seven days, and puts it in the caller's row. */
  lemma UpdateTakesEffectOnlyOnSuccess(s: DaysState, userId: Option<string>, newDays: DaysArg, writeError: Option<DbError>)
    ensures var r := UpdateWorkingDays(s, userId, newDays, writeError);
            && (UpdateSaves(userId, newDays, writeError) ==> r.state.workingDays == newDays.value)
            && (!UpdateSaves(userId, newDays, writeError) ==> r.state.workingDays == s.workingDays)
            && (r.sent != [] <==> SignedIn(userId) && newDays.Some? && |newDays.value| == 7)
            && (r.sent != [] ==> r.sent == [WriteDays(userId.value, newDays.value)]
                                 && r.sent[0].values["working_days"] == DaysJson(newDays.value))
            && (SignedIn(userId) ==> !r.state.loading)
  {
  }

  /** After a successful update the hook holds a full week. */
  lemma UpdateKeepsAWeek(s: DaysState, userId: Option<string>, newDays: DaysArg, writeError: Option<DbError>)
    requires |s.workingDays| == 7
    ensures |UpdateWorkingDays(s, userId, newDays, writeError).state.workingDays| == 7
  {
  }

  /** A missing row is created with the default week, which becomes the
    * state when the insert works; any other failure leaves the list alone. */
  lemma LoadNotFound(s: DaysState, userId: Option<string>, fetch: DaysReply, createError: Option<DbError>)
    requires SignedIn(userId) && fetch.error.Some?
    ensures var r := Load(s, true, userId, fetch, createError);
            && !r.state.loading
            && (fetch.error.value.code == NOT_FOUND_CODE ==>
                  r.sent[|r.sent| - 1] == CreateDefaultRow(userId.value)
                  && r.state.workingDays == (if createError.None? then DefaultWorkingDays() else s.workingDays))
            && (fetch.error.value.code != NOT_FOUND_CODE ==> r.sent == [ReadDays(userId.value)] && r.state.workingDays == s.workingDays)
  {
  }

  /** Before Clerk has loaded nothing happens; once loaded, loading ends. */
  lemma LoadEndsLoading(s: DaysState, clerkLoaded: bool, userId: Option<string>, fetch: DaysReply, createError: Option<DbError>)
    ensures !clerkLoaded ==> Load(s, clerkLoaded, userId, fetch, createError) == Step(s, [])
    ensures clerkLoaded ==> !Loading(Load(s, clerkLoaded, userId, fetch, createError).state, clerkLoaded)
  {
  }

  /** A change replaces the list only when it carries one, and a second
    * delivery of the same change does nothing more. */
  lemma OnChangeReplaces(s: DaysState, newWorkingDays: Option<seq<WorkingDay>>)
    ensures OnChange(s, newWorkingDays).workingDays == (if newWorkingDays.Some? then newWorkingDays.value else s.workingDays)
    ensures OnChange(s, newWorkingDays).loading == s.loading
    ensures OnChange(OnChange(s, newWorkingDays), newWorkingDays) == OnChange(s, newWorkingDays)
  {
  }
}
