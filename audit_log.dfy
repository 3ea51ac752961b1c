/**
 * The audit log (lib/audit-log.ts): `createAuditLog` inserts one entry
 * stamped with the current time and reports whether that worked, and
 * `getAuditLogs` builds a query over a user's entries from optional filters.
 */
module AuditLog {
  import opened Common
  import opened Supabase

  datatype Status = Success | Failure

  /** The `details` the routes record: the rejected or attempted value
    * under its label (`{ attempted_settings: ... }`), or the updated field
    * names (`{ updated_fields: Object.keys(body) }`, without their order). */
  datatype AuditDetails = Attempted(key: string, value: Json) | UpdatedFields(fields: set<string>)

  /** AuditLogEntry. */
  datatype AuditEntry = AuditEntry(
    userId: string,
    action: string,
    resource: string,
    details: AuditDetails,
    ipAddress: Option<string>,
    userAgent: Option<string>,
    status: Status,
    errorMessage: Option<string>,
    createdAt: Option<string>)

  /** How an insert into the database went: no error, an `{ error }` reply,
    * or a thrown exception. */
  datatype InsertOutcome = Inserted | InsertFailed(error: DbError) | InsertThrew(message: string)

  /** `{ ...entry, created_at: now }`: the entry with its time replaced. */
  function Stamped(entry: AuditEntry, now: string): (r: AuditEntry)
    ensures r.createdAt == Some(now)
    ensures r.(createdAt := entry.createdAt) == entry
  {
    entry.(createdAt := Some(now))
  }

  /** The rows an audit call adds: the stamped entry when the insert worked. */
  function Logged(entry: AuditEntry, now: string, outcome: InsertOutcome): seq<AuditEntry>
  {
    if outcome.Inserted? then [Stamped(entry, now)] else []
  }

  /** The `audit_logs` table. */
  class AuditLogTable {
    var rows: seq<AuditEntry>

    constructor (initial: seq<AuditEntry>)
      ensures rows == initial
    {
      rows := initial;
    }

    /** createAuditLog (22-41). It never throws: a failed or thrown insert
      * answers false. `now` is the time the entry is stamped with. */
    method CreateAuditLog(entry: AuditEntry, now: string, outcome: InsertOutcome) returns (ok: bool)
      modifies this
      ensures ok <==> outcome.Inserted?
      ensures rows == old(rows) + Logged(entry, now, outcome)
    {
      if outcome.Inserted? {
        rows := rows + [Stamped(entry, now)];
        ok := true;
      } else {
        ok := false;
      }
    }
  }

  /** A `Date` argument: `toISOString()` gives its text, or throws a
    * RangeError for an invalid date. */
  datatype DateArg = ValidDate(iso: string) | InvalidDate

  /** The options of getAuditLogs. */
  datatype LogOptions = LogOptions(
    resource: Option<string>,
    action: Option<string>,
    startDate: Option<DateArg>,
    endDate: Option<DateArg>,
    limit: Option<int>,
    offset: Option<int>)

  /** A truthy optional string or number. */
  predicate GivenText(s: Option<string>)
  {
    s.Some? && s.value != ""
  }

  predicate GivenNumber(n: Option<int>)
  {
    n.Some? && n.value != 0
  }

  /** An invalid date among the options makes the query construction throw. */
  predicate HasInvalidDate(o: LogOptions)
  {
    (o.startDate.Some? && o.startDate.value.InvalidDate?) || (o.endDate.Some? && o.endDate.value.InvalidDate?)
  }

  const NO_OPTIONS := LogOptions(None, None, None, None, None, None)

  /** The default page length of a range without a limit. */
  const DEFAULT_LIMIT := 10

  /** The rows getAuditLogs asks for: the user's, narrowed by every option
    * given. */
  predicate WantedRow(row: Row, userId: string, o: LogOptions)
  {
    && HasString(row, "user_id", userId)
    && (GivenText(o.resource) ==> HasString(row, "resource", o.resource.value))
    && (GivenText(o.action) ==> HasString(row, "action", o.action.value))
    && (o.startDate.Some? && o.startDate.value.ValidDate? ==> Holds(row, Gte("created_at", o.startDate.value.iso)))
    && (o.endDate.Some? && o.endDate.value.ValidDate? ==> Holds(row, Lte("created_at", o.endDate.value.iso)))
  }

  /** The query of the user's entries, newest first, with the text filters. */
  function TextQuery(userId: string, o: LogOptions): Select
  {
    var q := Where(From("audit_logs", "*"), Eq("user_id", JStr(userId))).(order := Some(Order("created_at", false)));
    var q := if GivenText(o.resource) then Where(q, Eq("resource", JStr(o.resource.value))) else q;
    if GivenText(o.action) then Where(q, Eq("action", JStr(o.action.value))) else q
  }

  /** The whole query of getAuditLogs, for options without an invalid date. */
  function LogQuery(userId: string, o: LogOptions): Select
    requires !HasInvalidDate(o)
  {
    var q := TextQuery(userId, o);
    var q := if o.startDate.Some? then Where(q, Gte("created_at", o.startDate.value.iso)) else q;
    var q := if o.endDate.Some? then Where(q, Lte("created_at", o.endDate.value.iso)) else q;
    var q := if GivenNumber(o.limit) then q.(limit := o.limit) else q;
    if GivenNumber(o.offset)
    then q.(range := Some(Window(o.offset.value, o.offset.value + (if GivenNumber(o.limit) then o.limit.value else DEFAULT_LIMIT) - 1)))
    else q
  }

  /** The audit-log query reads `audit_logs`, newest first, and matches
    * exactly the wanted rows; it limits the rows to a truthy limit, and a
    * truthy offset asks for the window of that many rows (ten without a
    * limit) from the offset. */
  lemma LogQueryMeaning(userId: string, o: LogOptions)
    requires !HasInvalidDate(o)
    ensures var q := LogQuery(userId, o);
            && q.table == "audit_logs"
            && q.order == Some(Order("created_at", false))
            && (forall row :: Matches(row, q.filters) <==> WantedRow(row, userId, o))
            && q.limit == (if GivenNumber(o.limit) then o.limit else None)
            && q.range == (if GivenNumber(o.offset)
                           then Some(Window(o.offset.value,
                                            o.offset.value + (if GivenNumber(o.limit) then o.limit.value else DEFAULT_LIMIT) - 1))
                           else None)
  {
    var t := TextQuery(userId, o);
    assert forall row :: Matches(row, t.filters) <==>
             HasString(row, "user_id", userId)
             && (GivenText(o.resource) ==> HasString(row, "resource", o.resource.value))
             && (GivenText(o.action) ==> HasString(row, "action", o.action.value));
  }

  /** getAuditLogs (43-94): the query sent and the rows returned, or None
    * (`null`) on an error or a throw. */
  method GetAuditLogs(userId: string, options: Option<LogOptions>, replyData: seq<Json>, replyError: Option<DbError>)
    returns (sent: Option<Select>, r: Option<seq<Json>>)
    ensures var o := if options.Some? then options.value else NO_OPTIONS;
            && (sent.None? <==> HasInvalidDate(o))
            && (sent.Some? ==> sent.value == LogQuery(userId, o))
            && (r.None? <==> HasInvalidDate(o) || replyError.Some?)
            && (r.Some? ==> r.value == replyData)
  {
    var o := if options.Some? then options.value else NO_OPTIONS;
    var query := Where(From("audit_logs", "*"), Eq("user_id", JStr(userId)));
    query := query.(order := Some(Order("created_at", false)));
    if GivenText(o.resource) {
      query := Where(query, Eq("resource", JStr(o.resource.value)));
    }
    if GivenText(o.action) {
      query := Where(query, Eq("action", JStr(o.action.value)));
    }
    if o.startDate.Some? {
      if o.startDate.value.InvalidDate? {
        return None, None;
      }
      query := Where(query, Gte("created_at", o.startDate.value.iso));
    }
    if o.endDate.Some? {
      if o.endDate.value.InvalidDate? {
        return None, None;
      }
      query := Where(query, Lte("created_at", o.endDate.value.iso));
    }
    if GivenNumber(o.limit) {
      query := query.(limit := o.limit);
    }
    if GivenNumber(o.offset) {
      var length := if GivenNumber(o.limit) then o.limit.value else DEFAULT_LIMIT;
      query := query.(range := Some(Window(o.offset.value, o.offset.value + length - 1)));
    }
    sent := Some(query);
    r := if replyError.Some? then None else Some(replyData);
  }
}
