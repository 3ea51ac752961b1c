/**
 * The profile route (app/api/user/profile/route.ts). Each handler checks the
 * session, then its rate limit, then reads the body and validates it, then
 * writes, recording one audit entry for a rejected body, a failed write or a
 * successful write.
 *
 * The database is an oracle: a handler's result lists the requests it sent,
 * and the write error and re-fetch reply are parameters. `body` is None
 * when `req.json()` throws. The decision ladder of each handler is a
 * function; the PATCH and PUT methods run it against the audit table.
 */
module ProfileRoute {
  import opened Common
  import opened Supabase
  import opened AuditLog
  import opened ApiRoute
  import opened ProfileValidation

  const RESOURCE := "user_profile"

  /** A failure entry: the attempted value under its key and the message. */
  function FailureEntry(userId: string, action: string, key: string, value: Json, message: string, meta: Metadata): AuditEntry
  {
    AuditEntry(userId, action, RESOURCE, Attempted(key, value), Some(meta.ipAddress), Some(meta.userAgent), Failure, Some(message), None)
  }

  /** A success entry: the names of the body's fields. */
  function SuccessEntry(userId: string, action: string, fields: set<string>, meta: Metadata): AuditEntry
  {
    AuditEntry(userId, action, RESOURCE, UpdatedFields(fields), Some(meta.ipAddress), Some(meta.userAgent), Success, None, None)
  }

  /** `.from('user_profiles').select('*').eq('user_id', userId)`. */
  function ProfileRead(userId: string): Select
  {
    Where(From("user_profiles", "*"), Eq("user_id", JStr(userId)))
  }

  /** `body.key` is truthy (a null body has already made it throw). */
  predicate Flagged(r: Result<Option<Json>>)
  {
    r.Ok? && r.value.Some? && Truthy(r.value.value)
  }

  /** The answer after a successful write: the re-fetched row, or a 500. */
  function Refetched(refetch: Single): Response
  {
    if refetch.error.Some? then JsonError(500, "Profile updated but failed to fetch updated data")
    else JsonOk(if refetch.data.Some? then JObj(refetch.data.value) else JNull)
  }

  /** GET (26-84). */
  function GetProfile(session: Option<string>, limiter: string -> LimitReply, fetch: Single): Handled
  {
    var gate := Gate(session, limiter, "profile_get_");
    if gate.Some? then Handled(gate.value, [], None)
    else
      var read := Read(ProfileRead(session.value));
      if fetch.error.Some? then Handled(JsonError(500, "Failed to fetch user profile"), [read], None)
      else if fetch.data.None? then Handled(JsonError(404, "Profile not found"), [read], None)
      else Handled(JsonOk(JObj(fetch.data.value)), [read], None)
  }

  /** `{ ...body, updated_at: now }`. */
  function UpdateData(body: Json, now: string): Row
  {
    Overlay(Spread(body), map["updated_at" := JStr(now)])
  }

  /** PATCH (86-223). */
  function PatchProfile(session: Option<string>, limiter: string -> LimitReply, body: Option<Json>, meta: Metadata,
                        now: string, writeError: Option<DbError>, refetch: Single): Handled
  {
    var gate := Gate(session, limiter, "profile_update_");
    if gate.Some? then Handled(gate.value, [], None)
    else if body.None? then Handled(INTERNAL_ERROR, [], None)
    else
      var userId := session.value;
      var b := body.value;
      var settings := Member(b, "settings");
      var days := Member(b, "working_days");
      if settings.Err? then Handled(INTERNAL_ERROR, [], None)
      else if Flagged(settings) && !ValidSettings(settings.value.value) then
        Handled(JsonError(400, "Invalid settings data"), [],
                Some(FailureEntry(userId, "update_settings", "attempted_settings", settings.value.value, "Invalid settings data", meta)))
      else if Flagged(days) && !ValidWorkingDays(days.value.value) then
        Handled(JsonError(400, "Invalid working days data"), [],
                Some(FailureEntry(userId, "update_working_days", "attempted_working_days", days.value.value, "Invalid working days data", meta)))
      else
        var update := Update("user_profiles", UpdateData(b, now), [Eq("user_id", JStr(userId))]);
        if writeError.Some? then
          Handled(JsonError(500, "Failed to update profile"), [update],
                  Some(FailureEntry(userId, "update_profile", "attempted_update", JObj(UpdateData(b, now)), writeError.value.message, meta)))
        else
          Handled(Refetched(refetch), [update, Read(ProfileRead(userId))], Some(SuccessEntry(userId, "update_profile", Keys(b), meta)))
  }

  /** `{ ...body, user_id: userId }`, the object PUT validates. */
  function WithOwner(body: Json, userId: string): Row
  {
    Overlay(Spread(body), map["user_id" := JStr(userId)])
  }

  /** `{ ...body, user_id: userId, updated_at: now }`, the row PUT upserts. */
  function ReplacementRow(body: Json, userId: string, now: string): Row
  {
    Overlay(Spread(body), map["user_id" := JStr(userId), "updated_at" := JStr(now)])
  }

  /** PUT (225-339). */
  function PutProfile(session: Option<string>, limiter: string -> LimitReply, body: Option<Json>, meta: Metadata,
                      now: string, isEmail: string -> bool, isDatetime: string -> bool,
                      writeError: Option<DbError>, refetch: Single): Handled
  {
    var gate := Gate(session, limiter, "profile_replace_");
    if gate.Some? then Handled(gate.value, [], None)
    else if body.None? then Handled(INTERNAL_ERROR, [], None)
    else
      var userId := session.value;
      var b := body.value;
      if !ValidProfile(JObj(WithOwner(b, userId)), isEmail, isDatetime) then
        Handled(JsonError(400, "Invalid profile data"), [],
                Some(FailureEntry(userId, "replace_profile", "attempted_profile", b, "Invalid profile data", meta)))
      else
        var upsert := Upsert("user_profiles", ReplacementRow(b, userId, now), None);
        if writeError.Some? then
          Handled(JsonError(500, "Failed to update profile"), [upsert],
                  Some(FailureEntry(userId, "replace_profile", "attempted_profile", b, writeError.value.message, meta)))
        else
          Handled(Refetched(refetch), [upsert, Read(ProfileRead(userId))], Some(SuccessEntry(userId, "replace_profile", Keys(b), meta)))
  }

  /** PATCH against the audit table: the response and requests of the
    * ladder, and its audit entry appended when the audit insert works. */
  method Patch(audit: AuditLogTable, session: Option<string>, limiter: string -> LimitReply, body: Option<Json>,
               meta: Metadata, now: string, writeError: Option<DbError>, refetch: Single,
               auditNow: string, auditOutcome: InsertOutcome)
    returns (response: Response, requests: seq<Request>)
    modifies audit
    ensures var h := PatchProfile(session, limiter, body, meta, now, writeError, refetch);
            response == h.response && requests == h.requests
            && audit.rows == old(audit.rows) + AuditRows(h, auditNow, auditOutcome)
  {
    var h := PatchProfile(session, limiter, body, meta, now, writeError, refetch);
    if h.audit.Some? {
      var logged := audit.CreateAuditLog(h.audit.value, auditNow, auditOutcome);
    }
    return h.response, h.requests;
  }

  /** PUT against the audit table. */
  method Put(audit: AuditLogTable, session: Option<string>, limiter: string -> LimitReply, body: Option<Json>,
             meta: Metadata, now: string, isEmail: string -> bool, isDatetime: string -> bool,
             writeError: Option<DbError>, refetch: Single, auditNow: string, auditOutcome: InsertOutcome)
    returns (response: Response, requests: seq<Request>)
    modifies audit
    ensures var h := PutProfile(session, limiter, body, meta, now, isEmail, isDatetime, writeError, refetch);
            response == h.response && requests == h.requests
            && audit.rows == old(audit.rows) + AuditRows(h, auditNow, auditOutcome)
  {
    var h := PutProfile(session, limiter, body, meta, now, isEmail, isDatetime, writeError, refetch);
    if h.audit.Some? {
      var logged := audit.CreateAuditLog(h.audit.value, auditNow, auditOutcome);
    }
    return h.response, h.requests;
  }

  // ---------------------------------------------------------------------
  // Properties of the ladders
  // ---------------------------------------------------------------------

  /** Without a session user every handler answers 401 before rate limiting,
    * sends nothing and records nothing. */
  lemma ProfileNeedsSession(session: Option<string>, limiter: string -> LimitReply, fetch: Single, body: Option<Json>,
                            meta: Metadata, now: string, isEmail: string -> bool, isDatetime: string -> bool,
                            writeError: Option<DbError>, refetch: Single)
    requires !SignedIn(session)
    ensures GetProfile(session, limiter, fetch) == Handled(UNAUTHORIZED_RESPONSE, [], None)
    ensures PatchProfile(session, limiter, body, meta, now, writeError, refetch) == Handled(UNAUTHORIZED_RESPONSE, [], None)
    ensures PutProfile(session, limiter, body, meta, now, isEmail, isDatetime, writeError, refetch) == Handled(UNAUTHORIZED_RESPONSE, [], None)
  {
  }

  /** A denial of the handler's own limit key answers 429 with the limiter's
    * numbers in the headers, sends nothing and records nothing. */
  lemma ProfileRateLimited(session: Option<string>, limiter: string -> LimitReply, fetch: Single, body: Option<Json>,
                           meta: Metadata, now: string, isEmail: string -> bool, isDatetime: string -> bool,
                           writeError: Option<DbError>, refetch: Single)
    requires SignedIn(session)
    ensures var v := limiter("profile_get_" + session.value);
            v.LimitReply? && !v.success ==>
              GetProfile(session, limiter, fetch) == Handled(TooManyRequests(v.limit, v.remaining, v.reset), [], None)
    ensures var v := limiter("profile_update_" + session.value);
            v.LimitReply? && !v.success ==>
              PatchProfile(session, limiter, body, meta, now, writeError, refetch) == Handled(TooManyRequests(v.limit, v.remaining, v.reset), [], None)
    ensures var v := limiter("profile_replace_" + session.value);
            v.LimitReply? && !v.success ==>
              PutProfile(session, limiter, body, meta, now, isEmail, isDatetime, writeError, refetch)
              == Handled(TooManyRequests(v.limit, v.remaining, v.reset), [], None)
  {
  }

  /** GET answers 500 on a database error, 404 without a row, and the row
    * otherwise; it never writes. */
  lemma GetProfileOutcomes(session: Option<string>, limiter: string -> LimitReply, fetch: Single)
    requires Gate(session, limiter, "profile_get_").None?
    ensures var h := GetProfile(session, limiter, fetch);
            && h.requests == [Read(ProfileRead(session.value))] && h.audit.None?
            && (h.response.status == 500 <==> fetch.error.Some?)
            && (h.response.status == 404 <==> fetch.error.None? && fetch.data.None?)
            && (h.response.status == 200 <==> fetch.error.None? && fetch.data.Some?)
  {
  }

  /** Invalid truthy settings are reported before the working days are
    * looked at: 400, one failure entry for the settings, and no write. */
  lemma PatchChecksSettingsFirst(session: Option<string>, limiter: string -> LimitReply, b: Json, meta: Metadata,
                                 now: string, writeError: Option<DbError>, refetch: Single)
    requires Gate(session, limiter, "profile_update_").None?
    requires b.JObj? && "settings" in b.fields && Truthy(b.fields["settings"]) && !ValidSettings(b.fields["settings"])
    ensures var h := PatchProfile(session, limiter, Some(b), meta, now, writeError, refetch);
            h.response == JsonError(400, "Invalid settings data") && h.requests == []
            && h.audit == Some(FailureEntry(session.value, "update_settings", "attempted_settings", b.fields["settings"], "Invalid settings data", meta))
  {
  }

  /** With acceptable settings, invalid truthy working days give 400 and
    * one failure entry for the working days, with no write. */
  lemma PatchChecksWorkingDays(session: Option<string>, limiter: string -> LimitReply, b: Json, meta: Metadata,
                               now: string, writeError: Option<DbError>, refetch: Single)
    requires Gate(session, limiter, "profile_update_").None?
    requires b.JObj? && !("settings" in b.fields && Truthy(b.fields["settings"]) && !ValidSettings(b.fields["settings"]))
    requires "working_days" in b.fields && Truthy(b.fields["working_days"]) && !ValidWorkingDays(b.fields["working_days"])
    ensures var h := PatchProfile(session, limiter, Some(b), meta, now, writeError, refetch);
            h.response == JsonError(400, "Invalid working days data") && h.requests == []
            && h.audit.Some? && h.audit.value.action == "update_working_days" && h.audit.value.status == Failure
  {
  }

  /** Once validation passes, PATCH writes the body's fields plus a fresh
    * updated_at to the caller's row; a failed write answers 500 with a
    * failure entry holding the attempted data, a successful one records the
    * body's field names. */
  lemma PatchWrite(session: Option<string>, limiter: string -> LimitReply, b: Json, meta: Metadata,
                   now: string, writeError: Option<DbError>, refetch: Single)
    requires Gate(session, limiter, "profile_update_").None?
    requires !b.JNull?
    requires !(Flagged(Member(b, "settings")) && !ValidSettings(Member(b, "settings").value.value))
    requires !(Flagged(Member(b, "working_days")) && !ValidWorkingDays(Member(b, "working_days").value.value))
    ensures var h := PatchProfile(session, limiter, Some(b), meta, now, writeError, refetch);
            && h.requests[0] == Update("user_profiles", UpdateData(b, now), [Eq("user_id", JStr(session.value))])
            && UpdateData(b, now)["updated_at"] == JStr(now)
            && (forall k :: k in Spread(b) && k != "updated_at" ==> UpdateData(b, now)[k] == Spread(b)[k])
            && (writeError.Some? ==>
                  h.response == JsonError(500, "Failed to update profile") && |h.requests| == 1
                  && h.audit == Some(FailureEntry(session.value, "update_profile", "attempted_update", JObj(UpdateData(b, now)),
                                                  writeError.value.message, meta)))
            && (writeError.None? ==>
                  h.response == Refetched(refetch) && |h.requests| == 2
                  && h.audit == Some(SuccessEntry(session.value, "update_profile", Keys(b), meta)))
  {
  }

  /** PUT validates and writes the caller's row whatever `user_id` the body
    * names: the validated object and the upserted row both carry the
    * session user. */
  lemma PutForcesOwner(session: Option<string>, limiter: string -> LimitReply, b: Json, meta: Metadata,
                       now: string, isEmail: string -> bool, isDatetime: string -> bool,
                       writeError: Option<DbError>, refetch: Single)
    requires Gate(session, limiter, "profile_replace_").None?
    ensures var h := PutProfile(session, limiter, Some(b), meta, now, isEmail, isDatetime, writeError, refetch);
            && (h.requests != [] <==> ValidProfile(JObj(WithOwner(b, session.value)), isEmail, isDatetime))
            && (h.requests != [] ==> h.requests[0] == Upsert("user_profiles", ReplacementRow(b, session.value, now), None))
            && h.audit.Some?
  {
    if ValidProfile(JObj(WithOwner(b, session.value)), isEmail, isDatetime) {
      PutUpserts(session, limiter, b, meta, now, isEmail, isDatetime, writeError, refetch);
    } else {
      PutRejects(session, limiter, b, meta, now, isEmail, isDatetime, writeError, refetch);
    }
  }

  /** The object PUT validates and the row it writes both name the session
    * user, whatever the body says, and the row stamps the time; the body's
    * other keys are kept. */
  lemma ReplacementRowOwner(b: Json, userId: string, now: string)
    ensures WithOwner(b, userId)["user_id"] == JStr(userId)
    ensures var row := ReplacementRow(b, userId, now);
            && row["user_id"] == JStr(userId) && row["updated_at"] == JStr(now)
            && (forall k :: k in Spread(b) && k !in {"user_id", "updated_at"} ==> row[k] == Spread(b)[k])
  {
  }

  /** An object that fails the profile schema is not written. */
  lemma PutRejects(session: Option<string>, limiter: string -> LimitReply, b: Json, meta: Metadata,
                   now: string, isEmail: string -> bool, isDatetime: string -> bool,
                   writeError: Option<DbError>, refetch: Single)
    requires Gate(session, limiter, "profile_replace_").None?
    requires !ValidProfile(JObj(WithOwner(b, session.value)), isEmail, isDatetime)
    ensures PutProfile(session, limiter, Some(b), meta, now, isEmail, isDatetime, writeError, refetch)
            == Handled(JsonError(400, "Invalid profile data"), [],
                       Some(FailureEntry(session.value, "replace_profile", "attempted_profile", b, "Invalid profile data", meta)))
  {
  }

  /** A valid object is upserted as the replacement row of the caller. */
  lemma PutUpserts(session: Option<string>, limiter: string -> LimitReply, b: Json, meta: Metadata,
                   now: string, isEmail: string -> bool, isDatetime: string -> bool,
                   writeError: Option<DbError>, refetch: Single)
    requires Gate(session, limiter, "profile_replace_").None?
    requires ValidProfile(JObj(WithOwner(b, session.value)), isEmail, isDatetime)
    ensures var h := PutProfile(session, limiter, Some(b), meta, now, isEmail, isDatetime, writeError, refetch);
            && h.requests != [] && h.audit.Some?
            && h.requests[0] == Upsert("user_profiles", ReplacementRow(b, session.value, now), None)
  {
  }
}
