/**
 * The Clerk user-sync webhook (app/api/webhooks/clerk/route.ts).
 *
 * `POST` checks the svix headers, asks the signature verifier, and then
 * creates a user with default preferences, five default work schedules and
 * an audit entry, or deletes a user and records an audit entry. The
 * separate dispatcher `syncUserWithSupabase` routes created, deleted and
 * updated events to their own handlers, which classify database failures
 * into responses.
 *
 * The database is an abstract store. Every request that the handlers send
 * to it takes its outcome from a sequence of oracle outcomes, in call order:
 * the request is applied, returns an `{error}` result, or throws. The
 * signature verifier, the clock and the environment are parameters.
 */
module ClerkWebhook {
  import opened Common
  import Errors

  // ---------------------------------------------------------------------
  // Events and the store
  // ---------------------------------------------------------------------

  /** Weekdays that get a default work schedule. */
  const DEFAULT_WORK_DAYS: seq<string> := ["monday", "tuesday", "wednesday", "thursday", "friday"]

  /** Default working hours. */
  const DEFAULT_START := "09:00"
  const DEFAULT_END := "17:00"

  datatype EmailAddress = EmailAddress(emailAddress: Option<string>)

  /** The `data` of a Clerk user event. */
  datatype UserData = UserData(
    id: string,
    emailAddresses: Option<seq<EmailAddress>>,
    firstName: Option<string>,
    lastName: Option<string>)

  /** A parsed webhook payload `{ type, data }`; `data` may be missing. */
  datatype ClerkEvent = ClerkEvent(eventType: string, data: Option<UserData>)

  /** The three svix headers, as read from the request. */
  datatype SvixHeaders = SvixHeaders(id: Option<string>, timestamp: Option<string>, signature: Option<string>)

  /** A header is present when it is there and non-empty. */
  predicate Present(h: Option<string>)
  {
    h.Some? && h.value != ""
  }

  predicate HeadersPresent(h: SvixHeaders)
  {
    Present(h.id) && Present(h.timestamp) && Present(h.signature)
  }

  /** `email_addresses?.[0]?.email_address`. */
  function FirstEmail(u: UserData): Option<string>
  {
    if u.emailAddresses.Some? && |u.emailAddresses.value| > 0 then u.emailAddresses.value[0].emailAddress else None
  }

  /** The first e-mail address when it is truthy (present and non-empty). */
  function PrimaryEmail(u: UserData): (r: Option<string>)
    ensures r.Some? <==> FirstEmail(u).Some? && FirstEmail(u).value != ""
    ensures r.Some? ==> r == FirstEmail(u)
  {
    var e := FirstEmail(u);
    if e.Some? && e.value != "" then e else None
  }

  /** A row of `users`. Absent timestamps are left to the column default. */
  datatype UserRow = UserRow(email: Option<string>, fullName: Option<string>, createdAt: Option<int>, updatedAt: Option<int>)

  /** A row of `user_preferences` with its `{ theme, notifications }` value. */
  datatype PreferencesRow = PreferencesRow(
    userId: string,
    theme: string,
    emailNotifications: bool,
    pushNotifications: bool,
    stampedAt: Option<int>)

  /** A row of `work_schedules`. */
  datatype WorkScheduleRow = WorkScheduleRow(userId: string, day: string, startTime: string, endTime: string, stampedAt: Option<int>)

  datatype AuditDetails = EmailDetails(email: string) | TimestampDetails(at: int)

  /** A row of `audit_logs`. */
  datatype AuditRow = AuditRow(userId: string, action: string, details: AuditDetails)

  /** The tables the webhook writes. `users` is keyed by its primary key. */
  datatype Store = Store(
    users: map<string, UserRow>,
    preferences: seq<PreferencesRow>,
    workSchedules: seq<WorkScheduleRow>,
    auditLogs: seq<AuditRow>)

  /** The outcome of one database request. */
  datatype Outcome = Applied | Rejected(message: string) | Thrown(message: string)

  /** The outcome of the i-th request; requests beyond the given outcomes are applied. */
  function Nth(outs: seq<Outcome>, i: nat): Outcome
  {
    if i < |outs| then outs[i] else Applied
  }

  /** The database requests the handlers send. */
  datatype Write =
    | InsertUser(id: string, email: string)
    | UpsertUser(id: string, upsertEmail: Option<string>, at: int)
    | UpdateUser(id: string, newEmail: string, newFullName: string, at: int)
    | DeleteUser(id: string)
    | InsertPreferences(prefs: PreferencesRow)
    | InsertSchedules(rows: seq<WorkScheduleRow>)
    | InsertAudit(audit: AuditRow)

  /** The rows of `rows` whose owner is not `id`, in their order. */
  function RowsNotOwnedBy<T(!new)>(rows: seq<T>, owner: T -> string, id: string): (r: seq<T>)
    ensures forall row :: row in r <==> row in rows && owner(row) != id
    ensures |r| <= |rows|
  {
    if rows == [] then []
    else (if owner(rows[0]) == id then [] else [rows[0]]) + RowsNotOwnedBy(rows[1..], owner, id)
  }

  /** The store once user `id` is deleted: its row leaves `users`, and the
    * cascade on `user_id` removes that user's preferences and schedules;
    * other users' rows and the audit log stay. */
  function WithoutUser(s: Store, id: string): (r: Store)
    ensures r.users == s.users - {id} && r.auditLogs == s.auditLogs
    ensures forall p :: p in r.preferences <==> p in s.preferences && p.userId != id
    ensures forall w :: w in r.workSchedules <==> w in s.workSchedules && w.userId != id
  {
    s.(users := s.users - {id},
       preferences := RowsNotOwnedBy(s.preferences, (p: PreferencesRow) => p.userId, id),
       workSchedules := RowsNotOwnedBy(s.workSchedules, (w: WorkScheduleRow) => w.userId, id))
  }

  /** The effect of a request that the database applied. Inserting a user
    * whose id exists violates the primary key and changes nothing; an
    * update of a missing id matches no row. An upsert keeps the columns it
    * does not name: an email that is undefined is left out of the request
    * body, so the stored email stays. Deleting a user cascades to that
    * user's preferences and schedules. */
  function Apply(s: Store, w: Write): Store
  {
    match w
    case InsertUser(id, email) =>
      if id in s.users then s else s.(users := s.users[id := UserRow(Some(email), None, None, None)])
    case UpsertUser(id, email, at) =>
      var fullName := if id in s.users then s.users[id].fullName else None;
      var kept := if email.None? && id in s.users then s.users[id].email else email;
      s.(users := s.users[id := UserRow(kept, fullName, Some(at), Some(at))])
    case UpdateUser(id, email, fullName, at) =>
      if id in s.users then s.(users := s.users[id := s.users[id].(email := Some(email), fullName := Some(fullName), updatedAt := Some(at))]) else s
    case DeleteUser(id) => WithoutUser(s, id)
    case InsertPreferences(row) => s.(preferences := s.preferences + [row])
    case InsertSchedules(rows) => s.(workSchedules := s.workSchedules + rows)
    case InsertAudit(row) => s.(auditLogs := s.auditLogs + [row])
  }

  /** The store after a request with the given outcome: only an applied
    * request changes it. */
  function Perform(s: Store, w: Write, o: Outcome): Store
  {
    if o.Applied? then Apply(s, w) else s
  }

  /** The database, as a mutable object. */
  class ClerkDatabase {
    var users: map<string, UserRow>
    var preferences: seq<PreferencesRow>
    var workSchedules: seq<WorkScheduleRow>
    var auditLogs: seq<AuditRow>

    constructor (initial: Store)
      ensures Snapshot() == initial
    {
      users := initial.users;
      preferences := initial.preferences;
      workSchedules := initial.workSchedules;
      auditLogs := initial.auditLogs;
    }

    function Snapshot(): Store
      reads this
    {
      Store(users, preferences, workSchedules, auditLogs)
    }

    /** Sends one request; reports whether it threw. A thrown request and
      * one answered with an error leave the tables as they were. */
    method Execute(w: Write, o: Outcome) returns (threw: bool)
      modifies this
      ensures threw == o.Thrown?
      ensures Snapshot() == Perform(old(Snapshot()), w, o)
    {
      threw := o.Thrown?;
      var s := Perform(Snapshot(), w, o);
      users, preferences, workSchedules, auditLogs := s.users, s.preferences, s.workSchedules, s.auditLogs;
    }
  }

  // ---------------------------------------------------------------------
  // Running a sequence of requests
  // ---------------------------------------------------------------------

  datatype Run = Run(store: Store, threw: bool)

  /** Sends `ws` in order, the request at position i taking outcome
    * `Nth(outs, k + i)`, and stops at the first that throws. The run throws
    * exactly when one of the outcomes it reaches is a throw. */
  function RunWrites(s: Store, ws: seq<Write>, outs: seq<Outcome>, k: nat): (r: Run)
    ensures r.threw <==> exists i :: k <= i < k + |ws| && Nth(outs, i).Thrown?
    decreases |ws|
  {
    if ws == [] then Run(s, false)
    else if Nth(outs, k).Thrown? then Run(s, true)
    else RunWrites(Perform(s, ws[0], Nth(outs, k)), ws[1..], outs, k + 1)
  }

  /** Running `a + b` runs `a`, then, unless it threw, `b`. */
  lemma {:induction false} RunWritesAppend(s: Store, a: seq<Write>, b: seq<Write>, outs: seq<Outcome>, k: nat)
    ensures RunWrites(s, a + b, outs, k)
         == (var r := RunWrites(s, a, outs, k); if r.threw then r else RunWrites(r.store, b, outs, k + |a|))
    decreases |a|
  {
    if a == [] {
      assert a + b == b;
    } else if !Nth(outs, k).Thrown? {
      assert (a + b)[1..] == a[1..] + b;
      RunWritesAppend(Perform(s, a[0], Nth(outs, k)), a[1..], b, outs, k + 1);
    }
  }

  /** Running one more request after `ws`. */
  lemma RunWritesSnoc(s: Store, ws: seq<Write>, w: Write, outs: seq<Outcome>, k: nat)
    ensures RunWrites(s, ws + [w], outs, k)
         == (var r := RunWrites(s, ws, outs, k);
             if r.threw then r
             else if Nth(outs, k + |ws|).Thrown? then Run(r.store, true)
             else Run(Perform(r.store, w, Nth(outs, k + |ws|)), false))
  {
    RunWritesAppend(s, ws, [w], outs, k);
  }

  /** Applies every request of `ws` as if each were applied. */
  function ApplyAll(s: Store, ws: seq<Write>): Store
    decreases |ws|
  {
    if ws == [] then s else ApplyAll(Apply(s, ws[0]), ws[1..])
  }

  /** With every outcome applied, a run is the plain sequence of effects. */
  lemma {:induction false} RunWritesAllApplied(s: Store, ws: seq<Write>, outs: seq<Outcome>, k: nat)
    requires forall i :: k <= i < k + |ws| ==> Nth(outs, i) == Applied
    ensures RunWrites(s, ws, outs, k) == Run(ApplyAll(s, ws), false)
    decreases |ws|
  {
    if ws != [] {
      RunWritesAllApplied(Apply(s, ws[0]), ws[1..], outs, k + 1);
    }
  }

  lemma ApplyAllPair(s: Store, w1: Write, w2: Write)
    ensures ApplyAll(s, [w1, w2]) == Apply(Apply(s, w1), w2)
  {
    var ws := [w1, w2];
    assert ws[1..] == [w2];
    assert ApplyAll(s, ws) == ApplyAll(Apply(s, w1), [w2]);
    assert [w2][1..] == [];
    assert ApplyAll(Apply(s, w1), [w2]) == ApplyAll(Apply(Apply(s, w1), w2), []);
  }

  lemma {:induction false} ApplyAllAppend(s: Store, a: seq<Write>, b: seq<Write>)
    ensures ApplyAll(s, a + b) == ApplyAll(ApplyAll(s, a), b)
    decreases |a|
  {
    if a == [] {
      assert a + b == b;
    } else {
      assert (a + b)[1..] == a[1..] + b;
      ApplyAllAppend(Apply(s, a[0]), a[1..], b);
    }
  }

  // ---------------------------------------------------------------------
  // POST
  // ---------------------------------------------------------------------

  datatype Body = Text(text: string) | SuccessBody | ErrorBody(error: string, errorType: string)

  datatype Response = Response(status: int, body: Body)

  const MISSING_HEADERS := Response(Errors.BAD_REQUEST, Text("Missing svix headers"))
  const VERIFICATION_FAILED := Response(Errors.BAD_REQUEST, Text("Error verifying webhook"))
  const MISSING_EMAIL := Response(Errors.BAD_REQUEST, Text("Missing email address"))
  const PROCESSING_FAILED := Response(Errors.INTERNAL_SERVER_ERROR, Text("Error processing webhook"))
  const PROCESSED := Response(200, Text("Webhook processed"))

  /** The default preferences row `POST` creates. */
  function DefaultPreferences(userId: string): PreferencesRow
  {
    PreferencesRow(userId, "system", true, true, None)
  }

  /** The default work-schedule rows, one per default weekday: Monday to
    * Friday, 09:00 to 17:00, in that order. */
  function DefaultSchedules(userId: string, stampedAt: Option<int>): (rows: seq<WorkScheduleRow>)
    ensures |rows| == 5
    ensures forall i :: 0 <= i < 5 ==> rows[i] == WorkScheduleRow(userId, DEFAULT_WORK_DAYS[i], DEFAULT_START, DEFAULT_END, stampedAt)
  {
    seq(5, i requires 0 <= i < 5 => WorkScheduleRow(userId, DEFAULT_WORK_DAYS[i], DEFAULT_START, DEFAULT_END, stampedAt))
  }

  /** The `user.created` requests of `POST`: the user, the preferences, one
    * insert per default weekday, and the audit entry. */
  function CreatedWrites(userId: string, email: string): (ws: seq<Write>)
    ensures |ws| == 8
  {
    [InsertUser(userId, email), InsertPreferences(DefaultPreferences(userId))]
    + seq(5, i requires 0 <= i < 5 => InsertSchedules([DefaultSchedules(userId, None)[i]]))
    + [InsertAudit(AuditRow(userId, "user.created", EmailDetails(email)))]
  }

  /** The `user.deleted` requests of `POST`. */
  function DeletedWrites(userId: string, now: int): seq<Write>
  {
    [DeleteUser(userId), InsertAudit(AuditRow(userId, "user.deleted", TimestampDetails(now)))]
  }

  /** What `POST` does with a payload, as a function of the store before it. */
  function PostSpec(s: Store, ev: ClerkEvent, h: SvixHeaders, verified: bool, now: int, outs: seq<Outcome>): (Store, Response)
  {
    if !HeadersPresent(h) then (s, MISSING_HEADERS)
    else if !verified then (s, VERIFICATION_FAILED)
    else if ev.data.None? then (s, PROCESSING_FAILED)
    else
      var user := ev.data.value;
      if ev.eventType == "user.created" && PrimaryEmail(user).None? then (s, MISSING_EMAIL)
      else
        var ws :=
          if ev.eventType == "user.created" then CreatedWrites(user.id, PrimaryEmail(user).value)
          else if ev.eventType == "user.deleted" then DeletedWrites(user.id, now)
          else [];
        var r := RunWrites(s, ws, outs, 0);
        (r.store, if r.threw then PROCESSING_FAILED else PROCESSED)
  }

  /** Sends `w` after the requests `done`, keeping the run of `done + [w]`
    * equal to the database state; on a throw, the whole run `done + rest`
    * has thrown with that state. */
  method Issue(db: ClerkDatabase, ghost s0: Store, ghost done: seq<Write>, index: nat, w: Write, ghost rest: seq<Write>, outs: seq<Outcome>)
    returns (threw: bool)
    requires index == |done|
    requires db.Snapshot() == RunWrites(s0, done, outs, 0).store && !RunWrites(s0, done, outs, 0).threw
    modifies db
    ensures threw ==> RunWrites(s0, done + [w] + rest, outs, 0) == Run(db.Snapshot(), true)
    ensures !threw ==> db.Snapshot() == RunWrites(s0, done + [w], outs, 0).store && !RunWrites(s0, done + [w], outs, 0).threw
  {
    threw := db.Execute(w, Nth(outs, index));
    RunWritesSnoc(s0, done, w, outs, 0);
    if threw {
      RunWritesAppend(s0, done + [w], rest, outs, 0);
    }
  }

  /** Sends the `user.created` requests in order, stopping at the first
    * that throws. */
  method RunCreated(db: ClerkDatabase, userId: string, email: string, outs: seq<Outcome>) returns (threw: bool)
    modifies db
    ensures Run(db.Snapshot(), threw) == RunWrites(old(db.Snapshot()), CreatedWrites(userId, email), outs, 0)
  {
    ghost var s0 := db.Snapshot();
    ghost var ws := CreatedWrites(userId, email);
    threw := Issue(db, s0, [], 0, InsertUser(userId, email), ws[1..], outs);
    if threw {
      return;
    }
    threw := Issue(db, s0, ws[..1], 1, InsertPreferences(DefaultPreferences(userId)), ws[2..], outs);
    assert ws[..1] + [ws[1]] == ws[..2];
    if threw {
      assert ws[..1] + [ws[1]] + ws[2..] == ws;
      return;
    }
    for k := 0 to |DEFAULT_WORK_DAYS|
      invariant db.Snapshot() == RunWrites(s0, ws[..2 + k], outs, 0).store
      invariant !RunWrites(s0, ws[..2 + k], outs, 0).threw
    {
      var row := WorkScheduleRow(userId, DEFAULT_WORK_DAYS[k], DEFAULT_START, DEFAULT_END, None);
      assert row == DefaultSchedules(userId, None)[k];
      assert ws[2 + k] == InsertSchedules([row]);
      threw := Issue(db, s0, ws[..2 + k], 2 + k, InsertSchedules([row]), ws[3 + k..], outs);
      assert ws[..2 + k] + [ws[2 + k]] == ws[..3 + k];
      if threw {
        assert ws[..3 + k] + ws[3 + k..] == ws;
        return;
      }
    }
    threw := Issue(db, s0, ws[..7], 7, InsertAudit(AuditRow(userId, "user.created", EmailDetails(email))), [], outs);
    assert ws[..7] + [ws[7]] == ws;
    if threw {
      assert ws + [] == ws;
    }
  }

  /** Sends the `user.deleted` requests in order, stopping at the first
    * that throws. */
  method RunDeleted(db: ClerkDatabase, userId: string, now: int, outs: seq<Outcome>) returns (threw: bool)
    modifies db
    ensures Run(db.Snapshot(), threw) == RunWrites(old(db.Snapshot()), DeletedWrites(userId, now), outs, 0)
  {
    ghost var s0 := db.Snapshot();
    ghost var ws := DeletedWrites(userId, now);
    threw := Issue(db, s0, [], 0, DeleteUser(userId), ws[1..], outs);
    if threw {
      return;
    }
    threw := Issue(db, s0, ws[..1], 1, InsertAudit(AuditRow(userId, "user.deleted", TimestampDetails(now))), [], outs);
    assert ws[..1] + [ws[1]] == ws;
    if threw {
      assert ws + [] == ws;
    }
  }

  /** The route handler. The payload is already parsed; `verified` is the
    * verifier's verdict on it. */
  method Post(db: ClerkDatabase, ev: ClerkEvent, h: SvixHeaders, verified: bool, now: int, outs: seq<Outcome>)
    returns (r: Response)
    modifies db
    ensures (db.Snapshot(), r) == PostSpec(old(db.Snapshot()), ev, h, verified, now, outs)
  {
    if !HeadersPresent(h) {
      return MISSING_HEADERS;
    }
    if !verified {
      return VERIFICATION_FAILED;
    }
    if ev.data.None? {
      return PROCESSING_FAILED;
    }
    var user := ev.data.value;
    var threw := false;
    match ev.eventType {
      case "user.created" =>
        var email := PrimaryEmail(user);
        if email.None? {
          return MISSING_EMAIL;
        }
        threw := RunCreated(db, user.id, email.value, outs);
      case "user.deleted" =>
        threw := RunDeleted(db, user.id, now, outs);
      case _ =>
        assert RunWrites(db.Snapshot(), [], outs, 0) == Run(db.Snapshot(), false);
    }
    r := if threw then PROCESSING_FAILED else PROCESSED;
  }

  // ---------------------------------------------------------------------
  // Properties of POST
  // ---------------------------------------------------------------------

  /** A request with a missing svix header is refused with 400 before
    * anything else happens. */
  lemma PostMissingHeaders(s: Store, ev: ClerkEvent, h: SvixHeaders, verified: bool, now: int, outs: seq<Outcome>)
    requires !HeadersPresent(h)
    ensures PostSpec(s, ev, h, verified, now, outs) == (s, MISSING_HEADERS)
  {
  }

  /** A payload the verifier rejects is refused with 400 and nothing is written. */
  lemma PostUnverified(s: Store, ev: ClerkEvent, h: SvixHeaders, now: int, outs: seq<Outcome>)
    requires HeadersPresent(h)
    ensures PostSpec(s, ev, h, false, now, outs) == (s, VERIFICATION_FAILED)
  {
  }

  /** `user.created` without a first e-mail address is refused with 400 and
    * nothing is written. */
  lemma PostCreatedWithoutEmail(s: Store, u: UserData, h: SvixHeaders, now: int, outs: seq<Outcome>)
    requires HeadersPresent(h) && PrimaryEmail(u).None?
    ensures PostSpec(s, ClerkEvent("user.created", Some(u)), h, true, now, outs) == (s, MISSING_EMAIL)
  {
  }

  lemma ApplyScheduleInserts(s: Store, rows: seq<WorkScheduleRow>)
    ensures ApplyAll(s, seq(|rows|, i requires 0 <= i < |rows| => InsertSchedules([rows[i]])))
         == s.(workSchedules := s.workSchedules + rows)
    decreases |rows|
  {
    var ws := seq(|rows|, i requires 0 <= i < |rows| => InsertSchedules([rows[i]]));
    if rows != [] {
      var last := rows[|rows| - 1];
      var init := rows[..|rows| - 1];
      var wsInit := seq(|init|, i requires 0 <= i < |init| => InsertSchedules([init[i]]));
      assert ws == wsInit + [InsertSchedules([last])];
      ApplyScheduleInserts(s, init);
      ApplyAllAppend(s, wsInit, [InsertSchedules([last])]);
      assert init + [last] == rows;
    } else {
      assert s.workSchedules + rows == s.workSchedules;
    }
  }

  /** `user.created` for a new id with an e-mail address, when the database
    * applies every request: it adds the user row with that e-mail, one
    * preferences row (theme "system", e-mail and push notifications on),
    * exactly the five default work schedules, and one audit entry, and
    * answers 200. */
  lemma PostCreatedEffect(s: Store, u: UserData, h: SvixHeaders, now: int, outs: seq<Outcome>)
    requires HeadersPresent(h) && PrimaryEmail(u).Some? && u.id !in s.users
    requires forall i :: 0 <= i < 8 ==> Nth(outs, i) == Applied
    ensures var email := PrimaryEmail(u).value;
            (PostSpec(s, ClerkEvent("user.created", Some(u)), h, true, now, outs)
             == (Store(s.users[u.id := UserRow(Some(email), None, None, None)],
                       s.preferences + [DefaultPreferences(u.id)],
                       s.workSchedules + DefaultSchedules(u.id, None),
                       s.auditLogs + [AuditRow(u.id, "user.created", EmailDetails(email))]),
                 PROCESSED))
  {
    var email := PrimaryEmail(u).value;
    var ws := CreatedWrites(u.id, email);
    RunWritesAllApplied(s, ws, outs, 0);
    var head := [InsertUser(u.id, email), InsertPreferences(DefaultPreferences(u.id))];
    var rows := DefaultSchedules(u.id, None);
    var mid := seq(5, i requires 0 <= i < 5 => InsertSchedules([rows[i]]));
    var tail := [InsertAudit(AuditRow(u.id, "user.created", EmailDetails(email)))];
    assert ws == head + mid + tail;
    ApplyAllAppend(s, head + mid, tail);
    ApplyAllAppend(s, head, mid);
    var s1 := ApplyAll(s, head);
    ApplyAllPair(s, head[0], head[1]);
    assert s1 == s.(users := s.users[u.id := UserRow(Some(email), None, None, None)],
                    preferences := s.preferences + [DefaultPreferences(u.id)]);
    ApplyScheduleInserts(s1, rows);
  }

  /** `user.deleted`, when the database applies both requests: the user and
    * that user's preferences and schedules are removed, one audit entry is
    * added, and the answer is 200 whether or not the row existed. */
  lemma PostDeletedEffect(s: Store, u: UserData, h: SvixHeaders, now: int, outs: seq<Outcome>)
    requires HeadersPresent(h)
    requires Nth(outs, 0) == Applied && Nth(outs, 1) == Applied
    ensures PostSpec(s, ClerkEvent("user.deleted", Some(u)), h, true, now, outs)
         == (WithoutUser(s, u.id).(auditLogs := s.auditLogs + [AuditRow(u.id, "user.deleted", TimestampDetails(now))]),
             PROCESSED)
  {
    var ws := DeletedWrites(u.id, now);
    RunWritesAllApplied(s, ws, outs, 0);
    ApplyAllPair(s, ws[0], ws[1]);
  }

  /** Any other event type writes nothing and answers 200. */
  lemma PostOtherEvent(s: Store, ev: ClerkEvent, h: SvixHeaders, now: int, outs: seq<Outcome>)
    requires HeadersPresent(h) && ev.data.Some?
    requires ev.eventType != "user.created" && ev.eventType != "user.deleted"
    ensures PostSpec(s, ev, h, true, now, outs) == (s, PROCESSED)
  {
  }

  /** The number of requests `POST` sends for an event it dispatches. */
  function PostWriteCount(ev: ClerkEvent): nat
  {
    if ev.eventType == "user.created" then 8 else if ev.eventType == "user.deleted" then 2 else 0
  }

  /** `POST` answers 500 exactly when the payload has no `data` or one of
    * its requests throws; a request answered with an error result does not
    * change the answer. */
  lemma PostFailsOnlyOnThrow(s: Store, ev: ClerkEvent, h: SvixHeaders, now: int, outs: seq<Outcome>)
    requires HeadersPresent(h)
    requires ev.eventType == "user.created" ==> ev.data.Some? && PrimaryEmail(ev.data.value).Some?
    ensures PostSpec(s, ev, h, true, now, outs).1 == PROCESSING_FAILED
        <==> ev.data.None? || exists i :: 0 <= i < PostWriteCount(ev) && Nth(outs, i).Thrown?
    ensures PostSpec(s, ev, h, true, now, outs).1 != PROCESSING_FAILED ==> PostSpec(s, ev, h, true, now, outs).1 == PROCESSED
  {
  }

  // ---------------------------------------------------------------------
  // The sync dispatcher and its handlers
  // ---------------------------------------------------------------------

  /** What a handler does: it answers, or an exception leaves it. */
  datatype Reply = Replied(response: Response) | Threw(message: string)

  /** The Supabase settings `initSupabaseClient` reads: the project URL
    * (either variable) and the service-role key. */
  datatype SupabaseEnv = SupabaseEnv(url: Option<string>, serviceKey: Option<string>)

  /** The names of the missing settings, in the order they are reported. */
  function MissingVariables(env: SupabaseEnv): seq<string>
  {
    (if Present(env.url) then [] else ["SUPABASE_URL"])
    + (if Present(env.serviceKey) then [] else ["SUPABASE_SERVICE_ROLE_KEY"])
  }

  function Join(parts: seq<string>, sep: string): string
  {
    if parts == [] then "" else if |parts| == 1 then parts[0] else parts[0] + sep + Join(parts[1..], sep)
  }

  /** initSupabaseClient: fails, naming the missing settings, when the URL
    * or the key is missing. */
  function InitSupabaseClient(env: SupabaseEnv): (r: Option<string>)
    ensures r.None? <==> Present(env.url) && Present(env.serviceKey)
    ensures r.Some? ==> StartsWith(r.value, Errors.ErrorTypeValue(Errors.Environment))
  {
    if Present(env.url) && Present(env.serviceKey) then None
    else Some(Errors.ErrorTypeValue(Errors.Environment) + ": Missing variables: " + Join(MissingVariables(env), ", "))
  }

  const SYNC_OK := Response(200, SuccessBody)

  /** handleUserCreation: upserts the user, then the preferences (theme
    * "light"), then the five schedules in one insert. An error result on
    * the user row is thrown; error results on the other two are ignored. */
  function CreationSpec(s: Store, u: UserData, now: int, outs: seq<Outcome>): (Store, Reply)
  {
    if u.emailAddresses.None? then (s, Threw("TypeError: Cannot read properties of undefined"))
    else
      var o0 := Nth(outs, 0);
      if o0.Thrown? || o0.Rejected? then (s, Threw(o0.message))
      else
        var s1 := Apply(s, UpsertUser(u.id, FirstEmail(u), now));
        var o1 := Nth(outs, 1);
        if o1.Thrown? then (s1, Threw(o1.message))
        else
          var s2 := Perform(s1, InsertPreferences(PreferencesRow(u.id, "light", true, true, Some(now))), o1);
          var o2 := Nth(outs, 2);
          if o2.Thrown? then (s2, Threw(o2.message))
          else (Perform(s2, InsertSchedules(DefaultSchedules(u.id, Some(now))), o2), Replied(SYNC_OK))
  }

  /** handleUserDeletion: every failure becomes a 500 answer of type
    * USER_DELETION_ERROR. */
  function DeletionSpec(s: Store, u: UserData, env: SupabaseEnv, outs: seq<Outcome>): (Store, Reply)
  {
    var deletionError := Errors.ErrorTypeValue(Errors.UserDeletion);
    var init := InitSupabaseClient(env);
    if init.Some? then (s, Replied(Response(500, ErrorBody(init.value, deletionError))))
    else
      match Nth(outs, 0)
      case Thrown(m) => (s, Replied(Response(500, ErrorBody(m, deletionError))))
      case Rejected(m) => (s, Replied(Response(500, ErrorBody(Errors.ErrorTypeValue(Errors.Database) + ": " + m, deletionError))))
      case Applied => (Apply(s, DeleteUser(u.id)), Replied(SYNC_OK))
  }

  /** `${first_name ?? ''} ${last_name ?? ''}`.trim() */
  function FullName(first: Option<string>, last: Option<string>): string
  {
    var f := if first.Some? then first.value else "";
    var l := if last.Some? then last.value else "";
    Trim(f + " " + l)
  }

  /** The catch of handleUserUpdate: connection, duplicate-key and
    * DATABASE_ERROR-prefixed messages are database failures (500); every
    * other message is a USER_CREATION_ERROR (400). */
  function ClassifyUpdateError(message: string): (r: Response)
    ensures r.status == 500 <==> Contains(message, "Database connection failed") || Contains(message, "duplicate key value") || StartsWith(message, "DATABASE_ERROR")
    ensures r.status == 500 || r.status == 400
    ensures r.body == ErrorBody(message, if r.status == 500 then "DATABASE_ERROR" else "USER_CREATION_ERROR")
  {
    if Contains(message, "Database connection failed") || Contains(message, "duplicate key value")
       || StartsWith(message, Errors.ErrorTypeValue(Errors.Database))
    then Response(500, ErrorBody(message, Errors.ErrorTypeValue(Errors.Database)))
    else Response(400, ErrorBody(message, Errors.ErrorTypeValue(Errors.UserCreation)))
  }

  /** handleUserUpdate. The missing-email check throws before the guarded
    * block, so that exception leaves the handler. */
  function UpdateSpec(s: Store, u: UserData, env: SupabaseEnv, now: int, outs: seq<Outcome>): (Store, Reply)
  {
    var email := PrimaryEmail(u);
    if email.None? then (s, Threw(Errors.ErrorTypeValue(Errors.UserCreation) + ": No email address found for user " + u.id))
    else
      var init := InitSupabaseClient(env);
      if init.Some? then (s, Replied(ClassifyUpdateError(init.value)))
      else
        match Nth(outs, 0)
        case Thrown(m) => (s, Replied(ClassifyUpdateError(m)))
        case Rejected(m) => (s, Replied(ClassifyUpdateError(Errors.ErrorTypeValue(Errors.Database) + ": " + m)))
        case Applied => (Apply(s, UpdateUser(u.id, email.value, FullName(u.firstName, u.lastName), now)), Replied(SYNC_OK))
  }

  /** syncUserWithSupabase: dispatches on the event type; other types answer
    * 200 and write nothing; exceptions are passed on. */
  function SyncSpec(s: Store, ev: ClerkEvent, env: SupabaseEnv, now: int, outs: seq<Outcome>): (Store, Reply)
  {
    if ev.data.None? then (s, Threw("TypeError: Cannot read properties of undefined"))
    else if ev.eventType == "user.created" then CreationSpec(s, ev.data.value, now, outs)
    else if ev.eventType == "user.deleted" then DeletionSpec(s, ev.data.value, env, outs)
    else if ev.eventType == "user.updated" then UpdateSpec(s, ev.data.value, env, now, outs)
    else (s, Replied(SYNC_OK))
  }

  method HandleUserCreation(db: ClerkDatabase, u: UserData, now: int, outs: seq<Outcome>) returns (r: Reply)
    modifies db
    ensures (db.Snapshot(), r) == CreationSpec(old(db.Snapshot()), u, now, outs)
  {
    if u.emailAddresses.None? {
      return Threw("TypeError: Cannot read properties of undefined");
    }
    var userOutcome := Nth(outs, 0);
    var threw := db.Execute(UpsertUser(u.id, FirstEmail(u), now), userOutcome);
    if threw || userOutcome.Rejected? {
      return Threw(userOutcome.message);
    }
    var prefOutcome := Nth(outs, 1);
    threw := db.Execute(InsertPreferences(PreferencesRow(u.id, "light", true, true, Some(now))), prefOutcome);
    if threw {
      return Threw(prefOutcome.message);
    }
    var scheduleOutcome := Nth(outs, 2);
    threw := db.Execute(InsertSchedules(DefaultSchedules(u.id, Some(now))), scheduleOutcome);
    if threw {
      return Threw(scheduleOutcome.message);
    }
    return Replied(SYNC_OK);
  }

  method HandleUserDeletion(db: ClerkDatabase, u: UserData, env: SupabaseEnv, outs: seq<Outcome>) returns (r: Reply)
    modifies db
    ensures (db.Snapshot(), r) == DeletionSpec(old(db.Snapshot()), u, env, outs)
  {
    var deletionError := Errors.ErrorTypeValue(Errors.UserDeletion);
    var init := InitSupabaseClient(env);
    if init.Some? {
      return Replied(Response(500, ErrorBody(init.value, deletionError)));
    }
    var outcome := Nth(outs, 0);
    var threw := db.Execute(DeleteUser(u.id), outcome);
    if threw {
      return Replied(Response(500, ErrorBody(outcome.message, deletionError)));
    }
    if outcome.Rejected? {
      return Replied(Response(500, ErrorBody(Errors.ErrorTypeValue(Errors.Database) + ": " + outcome.message, deletionError)));
    }
    return Replied(SYNC_OK);
  }

  method HandleUserUpdate(db: ClerkDatabase, u: UserData, env: SupabaseEnv, now: int, outs: seq<Outcome>) returns (r: Reply)
    modifies db
    ensures (db.Snapshot(), r) == UpdateSpec(old(db.Snapshot()), u, env, now, outs)
  {
    var email := PrimaryEmail(u);
    var fullName := FullName(u.firstName, u.lastName);
    if email.None? {
      return Threw(Errors.ErrorTypeValue(Errors.UserCreation) + ": No email address found for user " + u.id);
    }
    var init := InitSupabaseClient(env);
    if init.Some? {
      return Replied(ClassifyUpdateError(init.value));
    }
    var outcome := Nth(outs, 0);
    var threw := db.Execute(UpdateUser(u.id, email.value, fullName, now), outcome);
    if threw {
      return Replied(ClassifyUpdateError(outcome.message));
    }
    if outcome.Rejected? {
      return Replied(ClassifyUpdateError(Errors.ErrorTypeValue(Errors.Database) + ": " + outcome.message));
    }
    return Replied(SYNC_OK);
  }

  method SyncUserWithSupabase(db: ClerkDatabase, ev: ClerkEvent, env: SupabaseEnv, now: int, outs: seq<Outcome>) returns (r: Reply)
    modifies db
    ensures (db.Snapshot(), r) == SyncSpec(old(db.Snapshot()), ev, env, now, outs)
  {
    if ev.data.None? {
      return Threw("TypeError: Cannot read properties of undefined");
    }
    if ev.eventType == "user.created" {
      r := HandleUserCreation(db, ev.data.value, now, outs);
      return;
    }
    if ev.eventType == "user.deleted" {
      r := HandleUserDeletion(db, ev.data.value, env, outs);
      return;
    }
    if ev.eventType == "user.updated" {
      r := HandleUserUpdate(db, ev.data.value, env, now, outs);
      return;
    }
    return Replied(SYNC_OK);
  }

  // ---------------------------------------------------------------------
  // Properties of the dispatcher
  // ---------------------------------------------------------------------

  /** Missing name parts count as empty: no names give an empty full name. */
  lemma FullNameOfNoNames()
    ensures FullName(None, None) == ""
  {
    assert IsBlank("" + " " + "");
    TrimProperties("" + " " + "");
  }

  /** With both name parts present and free of surrounding white space, the
    * full name is the two parts joined by one space. */
  lemma FullNameOfTrimmedParts(first: string, last: string)
    requires first != "" && !IsJsWhitespace(first[0]) && !IsJsWhitespace(first[|first| - 1])
    requires last != "" && !IsJsWhitespace(last[0]) && !IsJsWhitespace(last[|last| - 1])
    ensures FullName(Some(first), Some(last)) == first + " " + last
  {
    var s := first + " " + last;
    assert s[0] == first[0];
    assert TrimStart(s) == s;
    assert s[|s| - 1] == last[|last| - 1];
    assert TrimEnd(s) == s;
  }

  /** The full name never starts or ends with white space. */
  lemma FullNameIsTrimmed(first: Option<string>, last: Option<string>)
    ensures var n := FullName(first, last); n != "" ==> !IsJsWhitespace(n[0]) && !IsJsWhitespace(n[|n| - 1])
  {
    var f := if first.Some? then first.value else "";
    var l := if last.Some? then last.value else "";
    TrimProperties(f + " " + l);
  }

  /** An applied update of an existing user writes exactly its e-mail, full
    * name and updated_at; every other column, every other row and every
    * other table keep their contents. */
  lemma UpdateWritesOnlyThreeColumns(s: Store, u: UserData, env: SupabaseEnv, now: int, outs: seq<Outcome>)
    requires PrimaryEmail(u).Some? && Present(env.url) && Present(env.serviceKey)
    requires Nth(outs, 0) == Applied && u.id in s.users
    ensures var (s', r) := UpdateSpec(s, u, env, now, outs);
            && r == Replied(SYNC_OK)
            && s'.users.Keys == s.users.Keys
            && s'.users[u.id] == UserRow(PrimaryEmail(u), Some(FullName(u.firstName, u.lastName)), s.users[u.id].createdAt, Some(now))
            && (forall id :: id in s.users && id != u.id ==> s'.users[id] == s.users[id])
            && s'.preferences == s.preferences && s'.workSchedules == s.workSchedules && s'.auditLogs == s.auditLogs
  {
  }

  /** Database failures of an update are answered 500 DATABASE_ERROR: an
    * error result is prefixed with DATABASE_ERROR, and so is classified as
    * a database failure whatever its message. */
  lemma UpdateRejectionIsDatabaseError(s: Store, u: UserData, env: SupabaseEnv, now: int, outs: seq<Outcome>, m: string)
    requires PrimaryEmail(u).Some? && Present(env.url) && Present(env.serviceKey)
    requires Nth(outs, 0) == Rejected(m)
    ensures UpdateSpec(s, u, env, now, outs) == (s, Replied(Response(500, ErrorBody("DATABASE_ERROR: " + m, "DATABASE_ERROR"))))
  {
    assert Errors.ErrorTypeValue(Errors.Database) + ": " + m == "DATABASE_ERROR: " + m;
    assert StartsWith("DATABASE_ERROR: " + m, "DATABASE_ERROR") by {
      assert ("DATABASE_ERROR: " + m)[..|"DATABASE_ERROR"|] == "DATABASE_ERROR";
    }
  }

  /** An updated event without an e-mail address makes the handler, and so
    * the dispatcher, throw: it is not answered with a response. */
  lemma UpdateWithoutEmailThrows(s: Store, u: UserData, env: SupabaseEnv, now: int, outs: seq<Outcome>)
    requires PrimaryEmail(u).None?
    ensures SyncSpec(s, ClerkEvent("user.updated", Some(u)), env, now, outs).1.Threw?
    ensures SyncSpec(s, ClerkEvent("user.updated", Some(u)), env, now, outs).0 == s
  {
  }

  /** A failed deletion is answered 500 of type USER_DELETION_ERROR and leaves
    * the store unchanged; an applied one removes that user and, by the
    * cascade, that user's preferences and schedules. */
  lemma DeletionOutcomes(s: Store, u: UserData, env: SupabaseEnv, outs: seq<Outcome>)
    ensures var (s', r) := DeletionSpec(s, u, env, outs);
            r.Replied? && (r.response.status == 500 || r.response == SYNC_OK)
            && (r.response.status == 500 ==> s' == s && r.response.body.errorType == "USER_DELETION_ERROR")
            && (r.response == SYNC_OK <==> InitSupabaseClient(env).None? && Nth(outs, 0) == Applied)
            && (r.response == SYNC_OK ==> s' == WithoutUser(s, u.id))
  {
  }

  /** A created user's row carries the first email address; when the event
    * has none, the upsert leaves the email column out and a stored email
    * stays. The full name of an existing row stays too. */
  lemma CreationKeepsUnnamedColumns(s: Store, u: UserData, now: int, outs: seq<Outcome>)
    requires u.emailAddresses.Some? && Nth(outs, 0) == Applied
    ensures var s' := CreationSpec(s, u, now, outs).0;
            u.id in s'.users
            && s'.users[u.id].email == (if FirstEmail(u).Some? then FirstEmail(u)
                                        else if u.id in s.users then s.users[u.id].email else None)
            && s'.users[u.id].fullName == (if u.id in s.users then s.users[u.id].fullName else None)
            && s'.users[u.id].createdAt == Some(now)
  {
  }

  /** Error results on the preferences and schedules of a created user are
    * ignored; an error result on the user row makes the handler throw. */
  lemma CreationIgnoresLaterRejections(s: Store, u: UserData, now: int, outs: seq<Outcome>)
    requires u.emailAddresses.Some?
    ensures Nth(outs, 0).Rejected? ==> CreationSpec(s, u, now, outs) == (s, Threw(Nth(outs, 0).message))
    ensures Nth(outs, 0) == Applied && !Nth(outs, 1).Thrown? && !Nth(outs, 2).Thrown?
            ==> CreationSpec(s, u, now, outs).1 == Replied(SYNC_OK)
  {
  }

  /** Event types other than created, deleted and updated are answered 200
    * and write nothing. */
  lemma SyncOtherEvent(s: Store, ev: ClerkEvent, env: SupabaseEnv, now: int, outs: seq<Outcome>)
    requires ev.data.Some?
    requires ev.eventType !in {"user.created", "user.deleted", "user.updated"}
    ensures SyncSpec(s, ev, env, now, outs) == (s, Replied(SYNC_OK))
  {
  }
}
