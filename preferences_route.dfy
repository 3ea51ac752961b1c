/**
 * The preferences route (app/api/user/preferences/route.ts): GET returns the
 * caller's row, PATCH checks the body against the nested preferences schema
 * and upserts it, recording one audit entry per outcome.
 *
 * The body is validated but not replaced by the parse result, so the
 * upserted row spreads the raw body, unknown keys included. As written the
 * spread comes after `user_id`, so a body that names another `user_id`
 * retargets the write; the model records that and uses the row with the
 * session user written last.
 */
module PreferencesRoute {
  import opened Common
  import opened Supabase
  import opened AuditLog
  import opened ApiRoute

  // ---------------------------------------------------------------------
  // The preferences schema (16-51)
  // ---------------------------------------------------------------------

  /** An optional key: absent, or present with a value meeting p. */
  predicate Optional(m: Row, key: string, p: Json -> bool)
  {
    key in m ==> p(m[key])
  }

  predicate IsString(j: Json) { j.JStr? }
  predicate IsBool(j: Json) { j.JBool? }
  predicate IsNumber(j: Json) { j.JNum? }

  /** `z.number().min(0).max(6)`. */
  predicate IsWeekdayNumber(j: Json)
  {
    j.JNum? && 0.0 <= j.n <= 6.0
  }

  predicate IsOneOf(j: Json, values: set<string>)
  {
    j.JStr? && j.s in values
  }

  predicate ArrayOf(j: Json, p: Json -> bool)
  {
    j.JArr? && forall i :: 0 <= i < |j.items| ==> p(j.items[i])
  }

  /** `{ start: string, end: string }`. */
  predicate ValidSpan(j: Json)
  {
    j.JObj? && "start" in j.fields && j.fields["start"].JStr? && "end" in j.fields && j.fields["end"].JStr?
  }

  predicate ValidCalendar(j: Json)
  {
    j.JObj?
    && Optional(j.fields, "defaultView", v => IsOneOf(v, {"day", "week", "month"}))
    && Optional(j.fields, "workingHours", ValidSpan)
    && Optional(j.fields, "timezone", IsString)
    && Optional(j.fields, "firstDayOfWeek", IsWeekdayNumber)
  }

  predicate ValidNotificationTypes(j: Json)
  {
    j.JObj?
    && Optional(j.fields, "taskDue", IsBool)
    && Optional(j.fields, "meetingReminder", IsBool)
    && Optional(j.fields, "aiSuggestions", IsBool)
  }

  predicate ValidNotifications(j: Json)
  {
    j.JObj?
    && Optional(j.fields, "email", IsBool)
    && Optional(j.fields, "push", IsBool)
    && Optional(j.fields, "reminderTiming", v => ArrayOf(v, IsNumber))
    && Optional(j.fields, "types", ValidNotificationTypes)
  }

  /** A focus block: a span and its days, each 0-6. */
  predicate ValidFocusBlock(j: Json)
  {
    ValidSpan(j) && "days" in j.fields && ArrayOf(j.fields["days"], IsWeekdayNumber)
  }

  predicate ValidAiScheduling(j: Json)
  {
    j.JObj?
    && Optional(j.fields, "defaultMeetingDuration", IsNumber)
    && Optional(j.fields, "minimumBreakTime", IsNumber)
    && Optional(j.fields, "focusTimeBlocks", v => ArrayOf(v, ValidFocusBlock))
    && Optional(j.fields, "taskPriority", v => IsOneOf(v, {"high", "medium", "low"}))
  }

  /** `z.record(z.string(), z.string())`. */
  predicate StringRecord(j: Json)
  {
    j.JObj? && forall k :: k in j.fields ==> j.fields[k].JStr?
  }

  predicate ValidUi(j: Json)
  {
    j.JObj?
    && Optional(j.fields, "language", IsString)
    && Optional(j.fields, "dashboardLayout", (v: Json) => v.JObj?)
    && Optional(j.fields, "defaultViews", StringRecord)
  }

  /** preferencesSchema: an object whose four sections, when present, are
    * valid; other keys are let through. */
  predicate ValidPreferences(body: Json)
  {
    body.JObj?
    && Optional(body.fields, "calendar", ValidCalendar)
    && Optional(body.fields, "notifications", ValidNotifications)
    && Optional(body.fields, "aiScheduling", ValidAiScheduling)
    && Optional(body.fields, "ui", ValidUi)
  }

  /** The schema accepts an empty object and one with unknown keys, and
    * rejects a first day of week of 7 and a non-object. */
  lemma PreferencesSchemaExamples()
    ensures ValidPreferences(JObj(map[]))
    ensures ValidPreferences(JObj(map["user_id" := JStr("someone-else")]))
    ensures !ValidPreferences(JObj(map["calendar" := JObj(map["firstDayOfWeek" := JNum(7.0)])]))
    ensures !ValidPreferences(JArr([]))
  {
    var bad := JObj(map["firstDayOfWeek" := JNum(7.0)]);
    assert !IsWeekdayNumber(bad.fields["firstDayOfWeek"]);
  }

  // ---------------------------------------------------------------------
  // Handlers
  // ---------------------------------------------------------------------

  const RESOURCE := "user_preferences"
  const ACTION := "update_preferences"

  function PreferencesRead(userId: string): Select
  {
    Where(From("user_preferences", "*"), Eq("user_id", JStr(userId)))
  }

  /** GET (61-111): the row, or `{}` when there is none. */
  function GetPreferences(session: Option<string>, limiter: string -> LimitReply, fetch: Single): Handled
  {
    var gate := Gate(session, limiter, "preferences_get_");
    if gate.Some? then Handled(gate.value, [], None)
    else
      var read := Read(PreferencesRead(session.value));
      if fetch.error.Some? then Handled(JsonError(500, "Failed to fetch preferences"), [read], None)
      else Handled(JsonOk(JObj(if fetch.data.Some? then fetch.data.value else map[])), [read], None)
  }

  /** The upserted row as written (165-169): `{ user_id, ...body, updated_at }`,
    * so the body's own `user_id` wins. */
  function UpsertRowAsWritten(userId: string, body: Json, now: string): Row
  {
    Overlay(Overlay(map["user_id" := JStr(userId)], Spread(body)), map["updated_at" := JStr(now)])
  }

  /** The upserted row with the owner written after the body: the row of
    * the session user, carrying the body's other keys. */
  function UpsertRow(userId: string, body: Json, now: string): (r: Row)
    ensures r.Keys == Spread(body).Keys + {"user_id", "updated_at"}
    ensures r["user_id"] == JStr(userId) && r["updated_at"] == JStr(now)
    ensures forall k :: k in Spread(body) && k !in {"user_id", "updated_at"} ==> r[k] == Spread(body)[k]
  {
    Overlay(Spread(body), map["user_id" := JStr(userId), "updated_at" := JStr(now)])
  }

  /** A valid body naming another user makes the as-written upsert target
    * that user's preferences row. */
  lemma BodyRetargetsUpsert(userId: string, other: string, now: string)
    requires other != userId
    ensures var body := JObj(map["user_id" := JStr(other)]);
            ValidPreferences(body)
            && UpsertRowAsWritten(userId, body, now)["user_id"] == JStr(other)
            && UpsertRow(userId, body, now)["user_id"] == JStr(userId)
  {
    PreferencesSchemaExamples();
    var body := JObj(map["user_id" := JStr(other)]);
    assert ValidPreferences(body) by {
      assert "calendar" !in body.fields && "notifications" !in body.fields;
      assert "aiScheduling" !in body.fields && "ui" !in body.fields;
    }
  }

  function FailureEntry(userId: string, body: Json, message: string, meta: Metadata): AuditEntry
  {
    AuditEntry(userId, ACTION, RESOURCE, Attempted("attempted_preferences", body), Some(meta.ipAddress), Some(meta.userAgent),
               Failure, Some(message), None)
  }

  function SuccessEntry(userId: string, body: Json, meta: Metadata): AuditEntry
  {
    AuditEntry(userId, ACTION, RESOURCE, UpdatedFields(Keys(body)), Some(meta.ipAddress), Some(meta.userAgent), Success, None, None)
  }

  /** PATCH (113-220), with the owner written after the body. */
  function PatchPreferences(session: Option<string>, limiter: string -> LimitReply, body: Option<Json>, meta: Metadata,
                            now: string, writeError: Option<DbError>, refetch: Single): Handled
  {
    var gate := Gate(session, limiter, "preferences_update_");
    if gate.Some? then Handled(gate.value, [], None)
    else if body.None? then Handled(INTERNAL_ERROR, [], None)
    else
      var userId := session.value;
      var b := body.value;
      if !ValidPreferences(b) then
        Handled(JsonError(400, "Invalid preferences data"), [], Some(FailureEntry(userId, b, "Invalid preferences data", meta)))
      else
        var upsert := Upsert("user_preferences", UpsertRow(userId, b, now), None);
        if writeError.Some? then
          Handled(JsonError(500, "Failed to update preferences"), [upsert], Some(FailureEntry(userId, b, writeError.value.message, meta)))
        else
          var read := Read(PreferencesRead(userId));
          var response := if refetch.error.Some? then JsonError(500, "Preferences updated but failed to fetch updated data")
                          else JsonOk(if refetch.data.Some? then JObj(refetch.data.value) else JNull);
          Handled(response, [upsert, read], Some(SuccessEntry(userId, b, meta)))
  }

  /** PATCH against the audit table. */
  method Patch(audit: AuditLogTable, session: Option<string>, limiter: string -> LimitReply, body: Option<Json>,
               meta: Metadata, now: string, writeError: Option<DbError>, refetch: Single,
               auditNow: string, auditOutcome: InsertOutcome)
    returns (response: Response, requests: seq<Request>)
    modifies audit
    ensures var h := PatchPreferences(session, limiter, body, meta, now, writeError, refetch);
            response == h.response && requests == h.requests
            && audit.rows == old(audit.rows) + AuditRows(h, auditNow, auditOutcome)
  {
    var h := PatchPreferences(session, limiter, body, meta, now, writeError, refetch);
    if h.audit.Some? {
      var logged := audit.CreateAuditLog(h.audit.value, auditNow, auditOutcome);
    }
    return h.response, h.requests;
  }

  // ---------------------------------------------------------------------
  // Properties of the ladders
  // ---------------------------------------------------------------------

  /** Both handlers answer 401 without a session user and 429 when their
    * own limit key is denied, sending and recording nothing. */
  lemma PreferencesGate(session: Option<string>, limiter: string -> LimitReply, fetch: Single, body: Option<Json>,
                        meta: Metadata, now: string, writeError: Option<DbError>, refetch: Single)
    ensures !SignedIn(session) ==>
              GetPreferences(session, limiter, fetch) == Handled(UNAUTHORIZED_RESPONSE, [], None)
              && PatchPreferences(session, limiter, body, meta, now, writeError, refetch) == Handled(UNAUTHORIZED_RESPONSE, [], None)
    ensures SignedIn(session) ==>
              var v := limiter("preferences_get_" + session.value);
              v.LimitReply? && !v.success ==>
                GetPreferences(session, limiter, fetch) == Handled(TooManyRequests(v.limit, v.remaining, v.reset), [], None)
    ensures SignedIn(session) ==>
              var v := limiter("preferences_update_" + session.value);
              v.LimitReply? && !v.success ==>
                PatchPreferences(session, limiter, body, meta, now, writeError, refetch)
                == Handled(TooManyRequests(v.limit, v.remaining, v.reset), [], None)
  {
  }

  /** GET answers 500 on a database error and otherwise the row or `{}`. */
  lemma GetPreferencesOutcomes(session: Option<string>, limiter: string -> LimitReply, fetch: Single)
    requires Gate(session, limiter, "preferences_get_").None?
    ensures var h := GetPreferences(session, limiter, fetch);
            && h.requests == [Read(PreferencesRead(session.value))] && h.audit.None?
            && (fetch.error.Some? ==> h.response == JsonError(500, "Failed to fetch preferences"))
            && (fetch.error.None? && fetch.data.None? ==> h.response == JsonOk(JObj(map[])))
            && (fetch.error.None? && fetch.data.Some? ==> h.response == JsonOk(JObj(fetch.data.value)))
  {
  }

  /** An invalid body answers 400 after one failure entry and is not
    * written; a valid one is upserted as the caller's row, and the entry
    * records the write's failure with its message or the body's keys. */
  lemma PatchPreferencesOutcomes(session: Option<string>, limiter: string -> LimitReply, b: Json, meta: Metadata,
                                 now: string, writeError: Option<DbError>, refetch: Single)
    requires Gate(session, limiter, "preferences_update_").None?
    ensures var h := PatchPreferences(session, limiter, Some(b), meta, now, writeError, refetch);
            && h.audit.Some? && h.audit.value.userId == session.value
            && (!ValidPreferences(b) ==>
                  h.response == JsonError(400, "Invalid preferences data") && h.requests == []
                  && h.audit.value.status == Failure && h.audit.value.details == Attempted("attempted_preferences", b))
            && (ValidPreferences(b) ==>
                  h.requests[0] == Upsert("user_preferences", UpsertRow(session.value, b, now), None)
                  && h.requests[0].row["user_id"] == JStr(session.value))
            && (ValidPreferences(b) && writeError.Some? ==>
                  h.response == JsonError(500, "Failed to update preferences") && |h.requests| == 1
                  && h.audit.value.errorMessage == Some(writeError.value.message) && h.audit.value.status == Failure)
            && (ValidPreferences(b) && writeError.None? ==>
                  |h.requests| == 2 && h.audit.value == SuccessEntry(session.value, b, meta)
                  && h.audit.value.details == UpdatedFields(Keys(b)))
  {
  }
}
