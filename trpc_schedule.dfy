/**
 * The tRPC schedule router (lib/trpc/routers/schedule.ts): a paginated list
 * of the caller's schedules, get/create/update/delete of one schedule scoped
 * to the caller, and the placeholder natural-language generator.
 *
 * Inputs are parsed JSON checked against scheduleSchema; the uuid and ISO
 * date-time formats are given predicates. Timestamps of the generator are
 * milliseconds since the epoch, read from a given clock.
 */
module TrpcSchedule {
  import opened Common
  import opened Supabase
  import opened Pagination
  import opened TrpcUser

  /** scheduleSchema's keys; create omits the last three. */
  const CREATE_KEYS: set<string> := {"title", "start_time", "end_time", "recurrence", "ai_generated"}
  const SCHEDULE_KEYS: set<string> := CREATE_KEYS + {"id", "created_at", "updated_at"}
  const REQUIRED_KEYS: set<string> := {"title", "start_time", "end_time"}

  /** The value a key of scheduleSchema may hold. */
  predicate ValidScheduleField(key: string, v: Json, isUuid: string -> bool, isDatetime: string -> bool)
  {
    match key
    case "id" => v.JStr? && isUuid(v.s)
    case "title" => v.JStr?
    case "start_time" => v.JStr? && isDatetime(v.s)
    case "end_time" => v.JStr? && isDatetime(v.s)
    case "recurrence" => v.JObj?
    case "ai_generated" => v.JBool?
    case "created_at" => v.JStr? && isDatetime(v.s)
    case "updated_at" => v.JStr? && isDatetime(v.s)
    case _ => false
  }

  /** scheduleSchema restricted to `keys`: the required keys are there,
    * every present key of the schema is valid, other keys are dropped, and
    * an absent `ai_generated` defaults to true. */
  function ParseSchedule(input: Json, keys: set<string>, isUuid: string -> bool, isDatetime: string -> bool): (r: Option<Row>)
    requires REQUIRED_KEYS <= keys && "ai_generated" in keys
    ensures r.Some? <==> input.JObj? && REQUIRED_KEYS <= input.fields.Keys
                         && forall k :: k in keys && k in input.fields ==> ValidScheduleField(k, input.fields[k], isUuid, isDatetime)
    ensures r.Some? ==> r.value.Keys == (input.fields.Keys * keys) + {"ai_generated"}
    ensures r.Some? ==> forall k :: k in r.value && k != "ai_generated" ==> r.value[k] == input.fields[k]
    ensures r.Some? ==> r.value["ai_generated"] == (if "ai_generated" in input.fields then input.fields["ai_generated"] else JBool(true))
  {
    if input.JObj? && REQUIRED_KEYS <= input.fields.Keys
       && forall k :: k in keys && k in input.fields ==> ValidScheduleField(k, input.fields[k], isUuid, isDatetime)
    then
      var kept := map k | k in input.fields && k in keys :: input.fields[k];
      Some(if "ai_generated" in kept then kept else kept["ai_generated" := JBool(true)])
    else None
  }

  /** `a ?? b` on a possibly missing key. */
  function Coalesce(v: Option<Json>, fallback: Json): Json
  {
    if v.Some? && !v.value.JNull? then v.value else fallback
  }

  function Lookup(row: Row, key: string): Option<Json>
  {
    if key in row then Some(row[key]) else None
  }

  /** The filter chain `.eq("id", id).eq("user_id", userId)`. */
  function OwnSchedule(id: string, userId: string): seq<Filter>
  {
    Where(Where(From("schedules", "*"), Eq("id", JStr(id))), Eq("user_id", JStr(userId))).filters
  }

  /** The id-and-owner filters select exactly the caller's row with that id. */
  lemma OwnScheduleMatches(id: string, userId: string)
    ensures forall row :: Matches(row, OwnSchedule(id, userId)) <==> HasString(row, "id", id) && HasString(row, "user_id", userId)
  {
  }

  datatype Listed = Listed(sent: Option<Select>, result: Result<Listing>)

  /** list (24-41): the caller's schedules by ascending start time. */
  function ListSchedules(ctx: Ctx, input: Option<PageInput>, reply: ListReply): (l: Listed)
    ensures l.sent.Some? <==> Authenticated(ctx) && ParsePage(input).Some?
    ensures l.sent.Some? ==>
              && l.sent.value.table == "schedules"
              && l.sent.value.order == Some(Order("start_time", true))
              && l.sent.value.range == Some(PageWindow(ParsePage(input).value))
              && (forall row :: Matches(row, l.sent.value.filters) <==> HasString(row, "user_id", ctx.userId.value))
              && l.result == ListResult(ParsePage(input).value, reply)
    ensures !Authenticated(ctx) ==> l.result == Err(UNAUTHORIZED)
    ensures Authenticated(ctx) && ParsePage(input).None? ==> l.result == Err(BAD_REQUEST)
  {
    if !Authenticated(ctx) then Listed(None, Err(UNAUTHORIZED))
    else
      var page := ParsePage(input);
      if page.None? then Listed(None, Err(BAD_REQUEST))
      else
        var q := Where(From("schedules", "*"), Eq("user_id", JStr(ctx.userId.value)));
        Listed(Some(q.(order := Some(Order("start_time", true)), range := Some(PageWindow(page.value)))),
               ListResult(page.value, reply))
  }

  /** The listing window and page count are those of the page arithmetic:
    * pageSize rows from (page - 1) * pageSize, and a page count covering
    * the reported rows. */
  lemma ListWindow(ctx: Ctx, input: Option<PageInput>, reply: ListReply)
    requires Authenticated(ctx) && ParsePage(input).Some? && reply.error.None?
    ensures var l := ListSchedules(ctx, input, reply);
            var pg := ParsePage(input).value;
            && l.sent.value.range.value.first == (pg.page - 1) * pg.pageSize
            && l.sent.value.range.value.last - l.sent.value.range.value.first + 1 == pg.pageSize
            && l.result.Ok?
            && (reply.count.Some? && reply.count.value > 0 ==>
                  (l.result.value.totalPages - 1) * pg.pageSize < reply.count.value <= l.result.value.totalPages * pg.pageSize)
            && (reply.count.None? || reply.count.value == 0 ==> l.result.value.totalPages == 1)
  {
    WindowSize(ParsePage(input).value);
  }

  /** get (46-56): the caller's schedule with that id. */
  function GetSchedule(ctx: Ctx, id: string, isUuid: string -> bool, fetch: Single): (c: Call)
    ensures c.requests != [] <==> Authenticated(ctx) && isUuid(id)
    ensures c.requests != [] ==> |c.requests| == 1 && c.requests[0].Read? && c.requests[0].query.table == "schedules"
                                 && c.requests[0].query.filters == OwnSchedule(id, ctx.userId.value)
                                 && (c.result.Err? <==> fetch.error.Some?)
    ensures c.requests != [] ==>
              c.result == (if fetch.error.Some? then Err(fetch.error.value.message)
                           else Ok(if fetch.data.Some? then JObj(fetch.data.value) else JNull))
    ensures !Authenticated(ctx) ==> c.result == Err(UNAUTHORIZED)
    ensures Authenticated(ctx) && !isUuid(id) ==> c.result == Err(BAD_REQUEST)
  {
    if !Authenticated(ctx) then Call([], Err(UNAUTHORIZED))
    else if !isUuid(id) then Call([], Err(BAD_REQUEST))
    else
      var read := Read(Where(Where(From("schedules", "*"), Eq("id", JStr(id))), Eq("user_id", JStr(ctx.userId.value))));
      if fetch.error.Some? then Call([read], Err(fetch.error.value.message))
      else Call([read], Ok(if fetch.data.Some? then JObj(fetch.data.value) else JNull))
  }

  /** create (61-68): inserts the parsed input with the caller as owner. */
  function CreateSchedule(ctx: Ctx, input: Json, isUuid: string -> bool, isDatetime: string -> bool, insertError: Option<DbError>): (c: Call)
    ensures c.requests != [] <==> Authenticated(ctx) && ParseSchedule(input, CREATE_KEYS, isUuid, isDatetime).Some?
    ensures c.requests != [] ==> |c.requests| == 1 && c.requests[0].Insert? && c.requests[0].table == "schedules"
                                 && |c.requests[0].rows| == 1 && (c.result.Ok? <==> insertError.None?)
  {
    if !Authenticated(ctx) then Call([], Err(UNAUTHORIZED))
    else
      var parsed := ParseSchedule(input, CREATE_KEYS, isUuid, isDatetime);
      if parsed.None? then Call([], Err(BAD_REQUEST))
      else
        var row := Overlay(parsed.value, map["user_id" := JStr(ctx.userId.value),
                                             "ai_generated" := Coalesce(Lookup(parsed.value, "ai_generated"), JBool(true))]);
        var insert := Insert("schedules", [row]);
        if insertError.Some? then Call([insert], Err(insertError.value.message))
        else Call([insert], Ok(SUCCESS))
  }

  /** The inserted row belongs to the caller, is ai-generated unless the
    * input says otherwise, and carries the input's other schema fields. */
  lemma CreatedRow(ctx: Ctx, input: Json, isUuid: string -> bool, isDatetime: string -> bool, insertError: Option<DbError>)
    requires Authenticated(ctx) && ParseSchedule(input, CREATE_KEYS, isUuid, isDatetime).Some?
    ensures var row := CreateSchedule(ctx, input, isUuid, isDatetime, insertError).requests[0].rows[0];
            && row["user_id"] == JStr(ctx.userId.value)
            && row["ai_generated"] == (if "ai_generated" in input.fields then input.fields["ai_generated"] else JBool(true))
            && row["ai_generated"].JBool?
            && row.Keys == (input.fields.Keys * CREATE_KEYS) + {"user_id", "ai_generated"}
            && (forall k :: k in input.fields && k in REQUIRED_KEYS ==> row[k] == input.fields[k])
  {
  }

  /** update (73-83): writes the parsed input and a fresh updated_at to the
    * caller's schedule with the input's id. */
  function UpdateSchedule(ctx: Ctx, input: Json, isUuid: string -> bool, isDatetime: string -> bool, now: string,
                  updateError: Option<DbError>): (c: Call)
    ensures c.requests != [] ==> Authenticated(ctx) && ParseSchedule(input, SCHEDULE_KEYS, isUuid, isDatetime).Some?
                                 && Truthy(Coalesce(Lookup(input.fields, "id"), JNull))
    ensures c.requests != [] ==> |c.requests| == 1 && c.requests[0].Update? && c.requests[0].table == "schedules"
                                 && c.requests[0].filters == OwnSchedule(input.fields["id"].s, ctx.userId.value)
                                 && (c.result.Ok? <==> updateError.None?)
    ensures Authenticated(ctx) && ParseSchedule(input, SCHEDULE_KEYS, isUuid, isDatetime).Some?
            && "id" in ParseSchedule(input, SCHEDULE_KEYS, isUuid, isDatetime).value
            && Truthy(ParseSchedule(input, SCHEDULE_KEYS, isUuid, isDatetime).value["id"])
            ==> c.requests != []
    ensures c.requests != [] ==>
              c.requests[0].values == Overlay(ParseSchedule(input, SCHEDULE_KEYS, isUuid, isDatetime).value,
                                              map["updated_at" := JStr(now)])
    ensures !Authenticated(ctx) ==> c == Call([], Err(UNAUTHORIZED))
    ensures Authenticated(ctx) && ParseSchedule(input, SCHEDULE_KEYS, isUuid, isDatetime).None?
            ==> c == Call([], Err(BAD_REQUEST))
  {
    if !Authenticated(ctx) then Call([], Err(UNAUTHORIZED))
    else
      var parsed := ParseSchedule(input, SCHEDULE_KEYS, isUuid, isDatetime);
      if parsed.None? then Call([], Err(BAD_REQUEST))
      else if !("id" in parsed.value && Truthy(parsed.value["id"])) then Call([], Err("Missing schedule id"))
      else
        var id := parsed.value["id"].s;
        var update := Update("schedules", Overlay(parsed.value, map["updated_at" := JStr(now)]), OwnSchedule(id, ctx.userId.value));
        if updateError.Some? then Call([update], Err(updateError.value.message))
        else Call([update], Ok(SUCCESS))
  }

  /** An update without an id throws before any write. */
  lemma UpdateNeedsId(ctx: Ctx, input: Json, isUuid: string -> bool, isDatetime: string -> bool, now: string, e: Option<DbError>)
    requires Authenticated(ctx) && ParseSchedule(input, SCHEDULE_KEYS, isUuid, isDatetime).Some?
    requires "id" !in input.fields
    ensures UpdateSchedule(ctx, input, isUuid, isDatetime, now, e) == Call([], Err("Missing schedule id"))
  {
  }

  /** Because the schema's default applies on update too, an update that
    * leaves out `ai_generated` writes `ai_generated: true`. */
  lemma UpdateDefaultsAiGenerated(ctx: Ctx, input: Json, isUuid: string -> bool, isDatetime: string -> bool, now: string, e: Option<DbError>)
    requires Authenticated(ctx) && ParseSchedule(input, SCHEDULE_KEYS, isUuid, isDatetime).Some?
    requires "id" in input.fields && Truthy(input.fields["id"]) && "ai_generated" !in input.fields
    ensures var c := UpdateSchedule(ctx, input, isUuid, isDatetime, now, e);
            |c.requests| == 1 && c.requests[0].Update?
            && c.requests[0].values["ai_generated"] == JBool(true)
            && c.requests[0].values["updated_at"] == JStr(now)
  {
    var parsed := ParseSchedule(input, SCHEDULE_KEYS, isUuid, isDatetime).value;
    assert "id" in parsed && parsed["id"] == input.fields["id"];
    assert parsed["ai_generated"] == JBool(true);
  }

  /** delete (88-97): deletes the caller's schedule with that id. */
  function DeleteSchedule(ctx: Ctx, id: string, isUuid: string -> bool, deleteError: Option<DbError>): (c: Call)
    ensures c.requests != [] <==> Authenticated(ctx) && isUuid(id)
    ensures c.requests != [] ==> c.requests == [Delete("schedules", OwnSchedule(id, ctx.userId.value))]
                                 && (c.result.Ok? <==> deleteError.None?)
  {
    if !Authenticated(ctx) then Call([], Err(UNAUTHORIZED))
    else if !isUuid(id) then Call([], Err(BAD_REQUEST))
    else
      var delete := Delete("schedules", OwnSchedule(id, ctx.userId.value));
      if deleteError.Some? then Call([delete], Err(deleteError.value.message))
      else Call([delete], Ok(SUCCESS))
  }

  /** One event of the generator's answer; times in milliseconds. */
  datatype MockEvent = MockEvent(title: string, startMs: int, endMs: int, aiGenerated: bool)

  datatype Generated = Generated(events: seq<MockEvent>, prompt: string)

  const ONE_HOUR_MS := 60 * 60 * 1000

  /** generateFromNaturalLanguage (102-116). The start and the end read the
    * clock separately (`new Date()` and `Date.now()`): the two readings are
    * startClock and endClock. */
  function GenerateFromNaturalLanguage(ctx: Ctx, prompt: string, startClock: int, endClock: int): (r: Result<Generated>)
    ensures r.Ok? <==> Authenticated(ctx)
    ensures r.Ok? ==> |r.value.events| == 1 && r.value.prompt == prompt
    ensures r.Ok? ==> r.value.events[0].endMs - r.value.events[0].startMs == ONE_HOUR_MS + (endClock - startClock)
    ensures r.Ok? ==> r.value.events[0].aiGenerated && r.value.events[0].title == "Mock Event"
  {
    if !Authenticated(ctx) then Err(UNAUTHORIZED)
    else Ok(Generated([MockEvent("Mock Event", startClock, endClock + ONE_HOUR_MS, true)], prompt))
  }

  /** When both readings fall in the same millisecond the event lasts
    * exactly one hour, 3 600 000 ms. */
  lemma GeneratedEventLastsAnHour(ctx: Ctx, prompt: string, now: int)
    requires Authenticated(ctx)
    ensures var r := GenerateFromNaturalLanguage(ctx, prompt, now, now);
            r.value.events[0].endMs == r.value.events[0].startMs + 3600000
  {
  }
}
