/**
 * The tRPC user router (lib/trpc/routers/user.ts): the preference
 * procedures with their defaults and merges, the paginated list procedures
 * that build their query through a chain of optional filters, and the admin
 * procedures behind the `isAdmin` guard.
 *
 * Every procedure is protected: a context without a user id is refused with
 * "UNAUTHORIZED" before its input is parsed. The database is an oracle: each
 * procedure returns the requests it sends together with its result, and
 * takes as parameters the replies those requests get.
 */
module TrpcUser {
  import opened Common
  import opened Supabase
  import opened Pagination

  const UNAUTHORIZED := "UNAUTHORIZED"
  const FORBIDDEN := "FORBIDDEN"
  /** A rejected input: tRPC answers with its BAD_REQUEST error. */
  const BAD_REQUEST := "BAD_REQUEST"

  /** The procedure context: `userId?` and `isAdmin?`. */
  datatype Ctx = Ctx(userId: Option<string>, isAdmin: Option<bool>)

  /** protectedProcedure's test `!ctx.userId`, negated. */
  predicate Authenticated(ctx: Ctx)
  {
    ctx.userId.Some? && ctx.userId.value != ""
  }

  /** The admin guard's test `!ctx.isAdmin`, negated. */
  predicate IsAdmin(ctx: Ctx)
  {
    ctx.isAdmin == Some(true)
  }

  /** The context createContext builds: it never sets `isAdmin`. */
  function CreatedContext(userId: Option<string>): Ctx
  {
    Ctx(userId, None)
  }

  /** What a procedure sent and what it returned or threw. */
  datatype Call = Call(requests: seq<Request>, result: Result<Json>)

  // ---------------------------------------------------------------------
  // Preferences
  // ---------------------------------------------------------------------

  const PREFERENCE_KEYS: set<string> := {"militaryTime", "workType", "categories", "notifications", "theme"}

  /** The preferences used when the user has none stored. */
  const DEFAULT_PREFERENCES: Row := map[
    "militaryTime" := JBool(false),
    "workType" := JStr("full-time"),
    "categories" := JArr([]),
    "theme" := JStr("system")]

  /** The value a key of preferencesSchema may hold. */
  predicate ValidPreference(key: string, v: Json)
  {
    match key
    case "militaryTime" => v.JBool?
    case "workType" => v.JStr? && v.s in {"full-time", "part-time"}
    case "categories" => v.JArr? && forall i :: 0 <= i < |v.items| ==> v.items[i].JStr?
    case "notifications" => v.JObj?
    case "theme" => v.JStr? && v.s in {"light", "dark", "system"}
    case _ => false
  }

  /** `preferencesSchema.partial()`: an object whose schema keys, when
    * present, hold valid values; the parse keeps only those keys, and an
    * absent key stays absent. */
  function ParsePreferencesPatch(input: Json): (r: Option<Row>)
    ensures r.Some? <==> input.JObj? && forall k :: k in PREFERENCE_KEYS && k in input.fields ==> ValidPreference(k, input.fields[k])
    ensures r.Some? ==> r.value.Keys == input.fields.Keys * PREFERENCE_KEYS
    ensures r.Some? ==> forall k :: k in r.value ==> r.value[k] == input.fields[k] && ValidPreference(k, r.value[k])
  {
    if input.JObj? && forall k :: k in PREFERENCE_KEYS && k in input.fields ==> ValidPreference(k, input.fields[k]) then
      Some(map k | k in input.fields && k in PREFERENCE_KEYS :: input.fields[k])
    else None
  }

  /** `.from("user_preferences").select("preferences").eq("user_id", userId)`. */
  function PreferencesRead(userId: string): Select
  {
    Where(From("user_preferences", "preferences"), Eq("user_id", JStr(userId)))
  }

  /** The `preferences` column of a fetched row. */
  function PreferencesOf(row: Row): Json
  {
    if "preferences" in row then row["preferences"] else JNull
  }

  /** A fetch error other than not-found is thrown. */
  predicate FetchFails(fetch: Single)
  {
    fetch.error.Some? && fetch.error.value.code != NOT_FOUND_CODE
  }

  /** getPreferences (118-155): the stored preferences, or, when there is no
    * row, the defaults, which are inserted first. */
  function GetPreferences(ctx: Ctx, fetch: Single, insertError: Option<DbError>): (c: Call)
  {
    if !Authenticated(ctx) then Call([], Err(UNAUTHORIZED))
    else
      var userId := ctx.userId.value;
      var read := Read(PreferencesRead(userId));
      if FetchFails(fetch) then Call([read], Err(fetch.error.value.message))
      else if fetch.data.None? then
        var insert := Insert("user_preferences", [map["user_id" := JStr(userId), "preferences" := JObj(DEFAULT_PREFERENCES)]]);
        if insertError.Some? then Call([read, insert], Err(insertError.value.message))
        else Call([read, insert], Ok(JObj(DEFAULT_PREFERENCES)))
      else Call([read], Ok(PreferencesOf(fetch.data.value)))
  }

  /** getPreferences fails on a fetch only for codes other than PGRST116; a
    * missing row yields the defaults, after inserting them, and writes
    * nothing else; a stored row is returned as it is, with no write. */
  lemma GetPreferencesOutcomes(ctx: Ctx, fetch: Single, insertError: Option<DbError>)
    requires Authenticated(ctx)
    ensures var c := GetPreferences(ctx, fetch, insertError);
            && (FetchFails(fetch) ==> c == Call([Read(PreferencesRead(ctx.userId.value))], Err(fetch.error.value.message)))
            && (!FetchFails(fetch) && fetch.data.None? ==>
                  |c.requests| == 2
                  && c.requests[1] == Insert("user_preferences", [map["user_id" := JStr(ctx.userId.value), "preferences" := JObj(DEFAULT_PREFERENCES)]])
                  && (c.result.Ok? <==> insertError.None?)
                  && (c.result.Ok? ==> c.result.value == JObj(DEFAULT_PREFERENCES)))
            && (!FetchFails(fetch) && fetch.data.Some? ==>
                  c.requests == [Read(PreferencesRead(ctx.userId.value))] && c.result == Ok(PreferencesOf(fetch.data.value)))
  {
  }

  /** A not-found fetch is tolerated: the defaults are inserted and returned. */
  lemma GetPreferencesToleratesNotFound(ctx: Ctx, message: string)
    requires Authenticated(ctx)
    ensures GetPreferences(ctx, Single(None, Some(DbError(NOT_FOUND_CODE, message))), None).result == Ok(JObj(DEFAULT_PREFERENCES))
  {
  }

  /** The base of the merge: `current?.preferences || defaults`, spread. */
  function MergeBase(current: Option<Row>): Row
  {
    if current.Some? && Truthy(PreferencesOf(current.value)) then Spread(PreferencesOf(current.value))
    else DEFAULT_PREFERENCES
  }

  /** updatePreferences (160-199). `now` is `new Date().toISOString()`. */
  function UpdatePreferences(ctx: Ctx, input: Json, fetch: Single, upsertError: Option<DbError>, now: string): (c: Call)
  {
    if !Authenticated(ctx) then Call([], Err(UNAUTHORIZED))
    else
      var patch := ParsePreferencesPatch(input);
      if patch.None? then Call([], Err(BAD_REQUEST))
      else
        var userId := ctx.userId.value;
        var read := Read(PreferencesRead(userId));
        if FetchFails(fetch) then Call([read], Err(fetch.error.value.message))
        else
          var updated := Overlay(MergeBase(fetch.data), patch.value);
          var upsert := Upsert("user_preferences",
                               map["user_id" := JStr(userId), "preferences" := JObj(updated), "updated_at" := JStr(now)],
                               Some("user_id"));
          if upsertError.Some? then Call([read, upsert], Err(upsertError.value.message))
          else Call([read, upsert], Ok(JObj(updated)))
  }

  /** The preferences updatePreferences writes and returns: every key of the
    * input overrides, every other key of the stored preferences (or, with
    * no stored row or falsy preferences, of the defaults) is kept, and the
    * upsert is keyed on user_id. */
  lemma UpdatePreferencesMerge(ctx: Ctx, input: Json, fetch: Single, upsertError: Option<DbError>, now: string)
    requires Authenticated(ctx) && ParsePreferencesPatch(input).Some? && !FetchFails(fetch)
    ensures var c := UpdatePreferences(ctx, input, fetch, upsertError, now);
            var patch := ParsePreferencesPatch(input).value;
            var base := if fetch.data.Some? && Truthy(PreferencesOf(fetch.data.value))
                        then Spread(PreferencesOf(fetch.data.value)) else DEFAULT_PREFERENCES;
            |c.requests| == 2 && c.requests[1].Upsert?
            && c.requests[1].onConflict == Some("user_id")
            && c.requests[1].row["user_id"] == JStr(ctx.userId.value)
            && c.requests[1].row["preferences"].JObj?
            && (var written := c.requests[1].row["preferences"].fields;
                && written.Keys == base.Keys + patch.Keys
                && (forall k :: k in patch ==> written[k] == input.fields[k])
                && (forall k :: k in base && k !in patch ==> written[k] == base[k])
                && (c.result.Ok? <==> upsertError.None?)
                && (c.result.Ok? ==> c.result.value == JObj(written)))
  {
  }

  /** With no stored row, an empty input writes exactly the defaults. */
  lemma UpdatePreferencesFromNothing(ctx: Ctx, now: string)
    requires Authenticated(ctx)
    ensures UpdatePreferences(ctx, JObj(map[]), Single(None, Some(DbError(NOT_FOUND_CODE, ""))), None, now).result
            == Ok(JObj(DEFAULT_PREFERENCES))
  {
    assert ParsePreferencesPatch(JObj(map[])) == Some(map[]);
    assert Overlay(DEFAULT_PREFERENCES, map[]) == DEFAULT_PREFERENCES;
  }

  /** updateNotificationPreferences (273-289): the stored preferences with
    * `notifications` replaced by the input record. Any fetch error is thrown,
    * and a missing row makes `data.preferences` throw. */
  function UpdateNotificationPreferences(ctx: Ctx, input: Json, fetch: Single, updateError: Option<DbError>): (c: Call)
  {
    if !Authenticated(ctx) then Call([], Err(UNAUTHORIZED))
    else if !input.JObj? then Call([], Err(BAD_REQUEST))
    else
      var userId := ctx.userId.value;
      var read := Read(PreferencesRead(userId));
      if fetch.error.Some? then Call([read], Err(fetch.error.value.message))
      else if fetch.data.None? then Call([read], Err("TypeError: Cannot read properties of null"))
      else
        var updated := Spread(PreferencesOf(fetch.data.value))["notifications" := input];
        var update := Update("user_preferences", map["preferences" := JObj(updated)], [Eq("user_id", JStr(userId))]);
        if updateError.Some? then Call([read, update], Err(updateError.value.message))
        else Call([read, update], Ok(JObj(map["success" := JBool(true)])))
  }

  /** The written preferences differ from the stored ones in the
    * `notifications` key only, which now holds the input. */
  lemma NotificationUpdateKeepsOtherKeys(ctx: Ctx, input: Json, row: Row, updateError: Option<DbError>)
    requires Authenticated(ctx) && input.JObj?
    ensures var c := UpdateNotificationPreferences(ctx, input, Single(Some(row), None), updateError);
            var stored := Spread(PreferencesOf(row));
            |c.requests| == 2 && c.requests[1].Update?
            && c.requests[1].filters == [Eq("user_id", JStr(ctx.userId.value))]
            && c.requests[1].values.Keys == {"preferences"}
            && c.requests[1].values["preferences"].JObj?
            && (var written := c.requests[1].values["preferences"].fields;
                && written.Keys == stored.Keys + {"notifications"}
                && written["notifications"] == input
                && (forall k :: k in stored && k != "notifications" ==> written[k] == stored[k]))
  {
  }

  /** Even a not-found fetch is an error here, and nothing is written. */
  lemma NotificationUpdateNeedsRow(ctx: Ctx, input: Json, fetch: Single, updateError: Option<DbError>)
    requires Authenticated(ctx) && input.JObj? && (fetch.error.Some? || fetch.data.None?)
    ensures var c := UpdateNotificationPreferences(ctx, input, fetch, updateError);
            c.result.Err? && c.requests == [Read(PreferencesRead(ctx.userId.value))]
  {
  }

  // ---------------------------------------------------------------------
  // Paginated lists
  // ---------------------------------------------------------------------

  /** notificationFilterSchema's fields. */
  datatype NotificationFilter = NotificationFilter(paging: PageInput, isRead: Option<bool>, kind: Option<string>)

  /** auditLogFilterSchema's fields. */
  datatype AuditLogFilter = AuditLogFilter(paging: PageInput, action: Option<string>, success: Option<bool>, userId: Option<string>)

  /** adminUserFilterSchema's fields. */
  datatype UserFilter = UserFilter(paging: PageInput, search: Option<string>)

  /** adminSubscriptionFilterSchema's fields. */
  datatype SubscriptionFilter = SubscriptionFilter(paging: PageInput, status: Option<string>, userId: Option<string>)

  const NO_PAGING := PageInput(None, None)

  /** `input || {}` for each input type. */
  function Notifications(input: Option<NotificationFilter>): NotificationFilter
  {
    if input.Some? then input.value else NotificationFilter(NO_PAGING, None, None)
  }

  function AuditLogs(input: Option<AuditLogFilter>): AuditLogFilter
  {
    if input.Some? then input.value else AuditLogFilter(NO_PAGING, None, None, None)
  }

  function Users(input: Option<UserFilter>): UserFilter
  {
    if input.Some? then input.value else UserFilter(NO_PAGING, None)
  }

  function Subscriptions(input: Option<SubscriptionFilter>): SubscriptionFilter
  {
    if input.Some? then input.value else SubscriptionFilter(NO_PAGING, None, None)
  }

  /** A truthy optional string: present and non-empty. */
  predicate Given(s: Option<string>)
  {
    s.Some? && s.value != ""
  }

  /** An optional `z.string().uuid()` field. */
  predicate UuidOk(s: Option<string>, isUuid: string -> bool)
  {
    s.None? || isUuid(s.value)
  }

  /** The order every list uses: newest first. */
  const NEWEST_FIRST := Some(Order("created_at", false))

  /** getNotifications (294-318): the caller's notifications, narrowed by
    * `is_read` when it is a boolean and by `type` when it is truthy. */
  method GetNotifications(ctx: Ctx, input: Option<NotificationFilter>, reply: ListReply)
    returns (sent: Option<Select>, r: Result<Listing>)
    ensures !Authenticated(ctx) ==> sent.None? && r == Err(UNAUTHORIZED)
    ensures Authenticated(ctx) && ParsePage(if input.Some? then Some(input.value.paging) else None).None?
            ==> sent.None? && r == Err(BAD_REQUEST)
    ensures sent.Some? ==>
              var f := Notifications(input);
              var pg := ParsePage(if input.Some? then Some(input.value.paging) else None).value;
              && Authenticated(ctx)
              && sent.value.table == "notifications"
              && sent.value.order == NEWEST_FIRST
              && sent.value.range == Some(PageWindow(pg))
              && (forall row :: Matches(row, sent.value.filters) <==>
                    HasString(row, "user_id", ctx.userId.value)
                    && (f.isRead.Some? ==> Holds(row, Eq("is_read", JBool(f.isRead.value))))
                    && (Given(f.kind) ==> HasString(row, "type", f.kind.value)))
              && r == ListResult(pg, reply)
    ensures Authenticated(ctx) && ParsePage(if input.Some? then Some(input.value.paging) else None).Some? ==> sent.Some?
  {
    if !Authenticated(ctx) {
      return None, Err(UNAUTHORIZED);
    }
    var page := ParsePage(if input.Some? then Some(input.value.paging) else None);
    if page.None? {
      return None, Err(BAD_REQUEST);
    }
    var f := Notifications(input);
    var query := Where(From("notifications", "*"), Eq("user_id", JStr(ctx.userId.value)));
    if f.isRead.Some? {
      query := Where(query, Eq("is_read", JBool(f.isRead.value)));
    }
    if Given(f.kind) {
      query := Where(query, Eq("type", JStr(f.kind.value)));
    }
    query := query.(order := NEWEST_FIRST, range := Some(PageWindow(page.value)));
    sent := Some(query);
    r := ListResult(page.value, reply);
  }

  /** getAuditLogs (333-353): the caller's own audit log, narrowed by a
    * truthy `action` and a boolean `success`; the `user_id` input is
    * validated but not used. */
  method GetAuditLogs(ctx: Ctx, input: Option<AuditLogFilter>, isUuid: string -> bool, reply: ListReply)
    returns (sent: Option<Select>, r: Result<Listing>)
    ensures !Authenticated(ctx) ==> sent.None? && r == Err(UNAUTHORIZED)
    ensures Authenticated(ctx)
            && (ParsePage(if input.Some? then Some(input.value.paging) else None).None? || !UuidOk(AuditLogs(input).userId, isUuid))
            ==> sent.None? && r == Err(BAD_REQUEST)
    ensures sent.Some? ==>
              var f := AuditLogs(input);
              var pg := ParsePage(if input.Some? then Some(input.value.paging) else None).value;
              && Authenticated(ctx)
              && sent.value.table == "audit_logs"
              && sent.value.order == NEWEST_FIRST
              && sent.value.range == Some(PageWindow(pg))
              && (forall row :: Matches(row, sent.value.filters) <==>
                    HasString(row, "user_id", ctx.userId.value)
                    && (Given(f.action) ==> HasString(row, "action", f.action.value))
                    && (f.success.Some? ==> Holds(row, Eq("success", JBool(f.success.value)))))
              && r == ListResult(pg, reply)
  {
    if !Authenticated(ctx) {
      return None, Err(UNAUTHORIZED);
    }
    var page := ParsePage(if input.Some? then Some(input.value.paging) else None);
    var f := AuditLogs(input);
    if page.None? || !UuidOk(f.userId, isUuid) {
      return None, Err(BAD_REQUEST);
    }
    var query := Where(From("audit_logs", "*"), Eq("user_id", JStr(ctx.userId.value)));
    if Given(f.action) {
      query := Where(query, Eq("action", JStr(f.action.value)));
    }
    if f.success.Some? {
      query := Where(query, Eq("success", JBool(f.success.value)));
    }
    query := query.(order := NEWEST_FIRST, range := Some(PageWindow(page.value)));
    sent := Some(query);
    r := ListResult(page.value, reply);
  }

  // ---------------------------------------------------------------------
  // Admin procedures
  // ---------------------------------------------------------------------

  /** adminListUsers (358-377): every user, or those whose email matches
    * `%search%` when search is truthy. */
  method AdminListUsers(ctx: Ctx, input: Option<UserFilter>, reply: ListReply)
    returns (sent: Option<Select>, r: Result<Listing>)
    ensures !Authenticated(ctx) ==> sent.None? && r == Err(UNAUTHORIZED)
    ensures Authenticated(ctx) && ParsePage(if input.Some? then Some(input.value.paging) else None).None?
            ==> sent.None? && r == Err(BAD_REQUEST)
    ensures Authenticated(ctx) && ParsePage(if input.Some? then Some(input.value.paging) else None).Some? && !IsAdmin(ctx)
            ==> sent.None? && r == Err(FORBIDDEN)
    ensures sent.Some? ==>
              var f := Users(input);
              var pg := ParsePage(if input.Some? then Some(input.value.paging) else None).value;
              && Authenticated(ctx) && IsAdmin(ctx)
              && sent.value.table == "users" && sent.value.columns == "id, email, created_at"
              && sent.value.order == NEWEST_FIRST
              && sent.value.range == Some(PageWindow(pg))
              && (forall row :: Matches(row, sent.value.filters) <==>
                    (Given(f.search) ==> Holds(row, ILike("email", "%" + f.search.value + "%"))))
              && r == ListResult(pg, reply)
  {
    if !Authenticated(ctx) {
      return None, Err(UNAUTHORIZED);
    }
    var page := ParsePage(if input.Some? then Some(input.value.paging) else None);
    if page.None? {
      return None, Err(BAD_REQUEST);
    }
    if !IsAdmin(ctx) {
      return None, Err(FORBIDDEN);
    }
    var f := Users(input);
    var query := From("users", "id, email, created_at");
    if Given(f.search) {
      query := Where(query, ILike("email", "%" + f.search.value + "%"));
    }
    query := query.(order := NEWEST_FIRST, range := Some(PageWindow(page.value)));
    sent := Some(query);
    r := ListResult(page.value, reply);
  }

  /** The admin search on `email` keeps a row exactly when its email
    * contains the search text, ignoring the case of ASCII letters, for a
    * search without `%`, `_` or backslash. */
  lemma AdminSearchMatchesSubstring(row: Row, search: string)
    requires Literal(search)
    ensures Holds(row, ILike("email", "%" + search + "%"))
            <==> "email" in row && row["email"].JStr? && exists i :: OccursAt(row["email"].s, search, i)
  {
    if "email" in row && row["email"].JStr? {
      ILikeContains(row["email"].s, search);
    }
  }

  /** adminListAuditLogs (411-432): any user's audit log, narrowed by a
    * truthy `user_id` and `action` and a boolean `success`. */
  method AdminListAuditLogs(ctx: Ctx, input: Option<AuditLogFilter>, isUuid: string -> bool, reply: ListReply)
    returns (sent: Option<Select>, r: Result<Listing>)
    ensures !Authenticated(ctx) ==> sent.None? && r == Err(UNAUTHORIZED)
    ensures Authenticated(ctx)
            && (ParsePage(if input.Some? then Some(input.value.paging) else None).None? || !UuidOk(AuditLogs(input).userId, isUuid))
            ==> sent.None? && r == Err(BAD_REQUEST)
    ensures Authenticated(ctx) && ParsePage(if input.Some? then Some(input.value.paging) else None).Some?
            && UuidOk(AuditLogs(input).userId, isUuid) && !IsAdmin(ctx)
            ==> sent.None? && r == Err(FORBIDDEN)
    ensures sent.Some? ==>
              var f := AuditLogs(input);
              var pg := ParsePage(if input.Some? then Some(input.value.paging) else None).value;
              && Authenticated(ctx) && IsAdmin(ctx)
              && sent.value.table == "audit_logs"
              && sent.value.order == NEWEST_FIRST
              && sent.value.range == Some(PageWindow(pg))
              && (forall row :: Matches(row, sent.value.filters) <==>
                    (Given(f.userId) ==> HasString(row, "user_id", f.userId.value))
                    && (Given(f.action) ==> HasString(row, "action", f.action.value))
                    && (f.success.Some? ==> Holds(row, Eq("success", JBool(f.success.value)))))
              && r == ListResult(pg, reply)
  {
    if !Authenticated(ctx) {
      return None, Err(UNAUTHORIZED);
    }
    var page := ParsePage(if input.Some? then Some(input.value.paging) else None);
    var f := AuditLogs(input);
    if page.None? || !UuidOk(f.userId, isUuid) {
      return None, Err(BAD_REQUEST);
    }
    if !IsAdmin(ctx) {
      return None, Err(FORBIDDEN);
    }
    var query := From("audit_logs", "*");
    if Given(f.userId) {
      query := Where(query, Eq("user_id", JStr(f.userId.value)));
    }
    if Given(f.action) {
      query := Where(query, Eq("action", JStr(f.action.value)));
    }
    if f.success.Some? {
      query := Where(query, Eq("success", JBool(f.success.value)));
    }
    query := query.(order := NEWEST_FIRST, range := Some(PageWindow(page.value)));
    sent := Some(query);
    r := ListResult(page.value, reply);
  }

  /** adminListSubscriptions (437-457): every subscription, narrowed by a
    * truthy `status` and `user_id`. */
  method AdminListSubscriptions(ctx: Ctx, input: Option<SubscriptionFilter>, isUuid: string -> bool, reply: ListReply)
    returns (sent: Option<Select>, r: Result<Listing>)
    ensures !Authenticated(ctx) ==> sent.None? && r == Err(UNAUTHORIZED)
    ensures Authenticated(ctx)
            && (ParsePage(if input.Some? then Some(input.value.paging) else None).None? || !UuidOk(Subscriptions(input).userId, isUuid))
            ==> sent.None? && r == Err(BAD_REQUEST)
    ensures Authenticated(ctx) && ParsePage(if input.Some? then Some(input.value.paging) else None).Some?
            && UuidOk(Subscriptions(input).userId, isUuid) && !IsAdmin(ctx)
            ==> sent.None? && r == Err(FORBIDDEN)
    ensures sent.Some? ==>
              var f := Subscriptions(input);
              var pg := ParsePage(if input.Some? then Some(input.value.paging) else None).value;
              && Authenticated(ctx) && IsAdmin(ctx)
              && sent.value.table == "subscriptions" && sent.value.columns == "*, plan_tiers(*)"
              && sent.value.order == NEWEST_FIRST
              && sent.value.range == Some(PageWindow(pg))
              && (forall row :: Matches(row, sent.value.filters) <==>
                    (Given(f.status) ==> HasString(row, "status", f.status.value))
                    && (Given(f.userId) ==> HasString(row, "user_id", f.userId.value)))
              && r == ListResult(pg, reply)
  {
    if !Authenticated(ctx) {
      return None, Err(UNAUTHORIZED);
    }
    var page := ParsePage(if input.Some? then Some(input.value.paging) else None);
    var f := Subscriptions(input);
    if page.None? || !UuidOk(f.userId, isUuid) {
      return None, Err(BAD_REQUEST);
    }
    if !IsAdmin(ctx) {
      return None, Err(FORBIDDEN);
    }
    var query := From("subscriptions", "*, plan_tiers(*)");
    if Given(f.status) {
      query := Where(query, Eq("status", JStr(f.status.value)));
    }
    if Given(f.userId) {
      query := Where(query, Eq("user_id", JStr(f.userId.value)));
    }
    query := query.(order := NEWEST_FIRST, range := Some(PageWindow(page.value)));
    sent := Some(query);
    r := ListResult(page.value, reply);
  }

  /** The guard shared by the single-user admin procedures: authentication,
    * then the uuid input, then `isAdmin`. */
  function AdminGuard(ctx: Ctx, id: string, isUuid: string -> bool): (refusal: Option<string>)
    ensures refusal.None? <==> Authenticated(ctx) && isUuid(id) && IsAdmin(ctx)
    ensures Authenticated(ctx) && isUuid(id) && !IsAdmin(ctx) ==> refusal == Some(FORBIDDEN)
  {
    if !Authenticated(ctx) then Some(UNAUTHORIZED)
    else if !isUuid(id) then Some(BAD_REQUEST)
    else if !IsAdmin(ctx) then Some(FORBIDDEN)
    else None
  }

  /** `{ success: true }`. */
  const SUCCESS := JObj(map["success" := JBool(true)])

  /** adminGetUserProfile (382-392): one user row by id. */
  function AdminGetUserProfile(ctx: Ctx, id: string, isUuid: string -> bool, fetch: Single): (c: Call)
    ensures c.requests != [] <==> AdminGuard(ctx, id, isUuid).None?
    ensures c.requests != [] ==>
              c.requests == [Read(Where(From("users", "id, email, created_at, updated_at"), Eq("id", JStr(id))))]
              && (c.result.Err? <==> fetch.error.Some?)
    ensures c.requests != [] ==>
              c.result == (if fetch.error.Some? then Err(fetch.error.value.message)
                           else Ok(if fetch.data.Some? then JObj(fetch.data.value) else JNull))
    ensures c.requests == [] ==> c.result == Err(AdminGuard(ctx, id, isUuid).value)
  {
    var refusal := AdminGuard(ctx, id, isUuid);
    if refusal.Some? then Call([], Err(refusal.value))
    else
      var read := Read(Where(From("users", "id, email, created_at, updated_at"), Eq("id", JStr(id))));
      if fetch.error.Some? then Call([read], Err(fetch.error.value.message))
      else Call([read], Ok(if fetch.data.Some? then JObj(fetch.data.value) else JNull))
  }

  /** adminDeleteUser (397-406): deletes the user row with that id. */
  function AdminDeleteUser(ctx: Ctx, id: string, isUuid: string -> bool, deleteError: Option<DbError>): (c: Call)
    ensures c.requests != [] <==> AdminGuard(ctx, id, isUuid).None?
    ensures c.requests != [] ==>
              c.requests == [Delete("users", [Eq("id", JStr(id))])]
              && (c.result.Ok? <==> deleteError.None?)
  {
    var refusal := AdminGuard(ctx, id, isUuid);
    if refusal.Some? then Call([], Err(refusal.value))
    else
      var delete := Delete("users", [Eq("id", JStr(id))]);
      if deleteError.Some? then Call([delete], Err(deleteError.value.message))
      else Call([delete], Ok(SUCCESS))
  }

  /** adminUpdateUser (462-475): writes the optional email and a fresh
    * updated_at to the user row with that id; the id itself is not written. */
  function AdminUpdateUser(ctx: Ctx, id: string, email: Option<string>, isUuid: string -> bool, isEmail: string -> bool,
                           now: string, updateError: Option<DbError>): (c: Call)
    ensures c.requests != [] ==> AdminGuard(ctx, id, isUuid).None? && (email.None? || isEmail(email.value))
    ensures AdminGuard(ctx, id, isUuid) == Some(FORBIDDEN) && (email.None? || isEmail(email.value))
            ==> c == Call([], Err(FORBIDDEN))
    ensures c.requests != [] ==>
              && |c.requests| == 1 && c.requests[0].Update?
              && c.requests[0].table == "users" && c.requests[0].filters == [Eq("id", JStr(id))]
              && c.requests[0].values.Keys == (if email.Some? then {"email", "updated_at"} else {"updated_at"})
              && c.requests[0].values["updated_at"] == JStr(now)
              && (email.Some? ==> c.requests[0].values["email"] == JStr(email.value))
              && (c.result.Ok? <==> updateError.None?)
  {
    if !Authenticated(ctx) then Call([], Err(UNAUTHORIZED))
    else if !isUuid(id) || (email.Some? && !isEmail(email.value)) then Call([], Err(BAD_REQUEST))
    else if !IsAdmin(ctx) then Call([], Err(FORBIDDEN))
    else
      var fields: Row := if email.Some? then map["email" := JStr(email.value)] else map[];
      var update := Update("users", Overlay(fields, map["updated_at" := JStr(now)]), [Eq("id", JStr(id))]);
      if updateError.Some? then Call([update], Err(updateError.value.message))
      else Call([update], Ok(SUCCESS))
  }

  /** Under the context createContext builds, every single-user admin
    * procedure is refused before any request: `isAdmin` is never set. */
  lemma CreatedContextNeverAdmin(userId: Option<string>, id: string, email: Option<string>, isUuid: string -> bool,
                                 isEmail: string -> bool, now: string, fetch: Single, e: Option<DbError>)
    ensures !IsAdmin(CreatedContext(userId))
    ensures AdminGetUserProfile(CreatedContext(userId), id, isUuid, fetch).requests == []
    ensures AdminDeleteUser(CreatedContext(userId), id, isUuid, e).requests == []
    ensures AdminUpdateUser(CreatedContext(userId), id, email, isUuid, isEmail, now, e).requests == []
  {
  }
}
