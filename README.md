# TaskMind AI: user sync, settings and request handling, modelled in Dafny

This project models the server and client logic of TaskMind AI, a Next.js
calendar and task planner. It covers these parts:

- **Clerk webhook** (`common.dfy` helpers, `clerk_webhook.dfy`). It creates a
  user with default preferences, five default work schedules and an audit
  entry. It deletes users, and the database cascade removes their
  preferences and schedules. It also has the `syncUserWithSupabase` dispatcher
  with its create, update and delete handlers.
- **Stripe webhook** (`stripe_webhook.dfy`). It dispatches the ten relevant
  Stripe events to their catalogue or subscription actions.
- **Settings page** (`settings_page.dfy`) and its two hooks
  (`working_days_hook.dfy`, `settings_hook.dfy`). The page shows optimistic
  copies of the user's changes and hands each change to a hook. The hooks
  load, create, merge and write the user's `user_profiles` row.
- **Validators and errors.** The profile validators are in
  `profile_validation.dfy`. The error vocabulary and its classifiers are in
  `errors.dfy`.
- **tRPC routers.** The user router is in `trpc_user.dfy`, the schedule router
  in `trpc_schedule.dfy`, and their page arithmetic in `pagination.dfy`.
- **REST routes.** The profile route (`profile_route.dfy`) and the preferences
  route (`preferences_route.dfy`) share `api_route.dfy`. Their audit log is
  in `audit_log.dfy`. The PostgREST request shapes are in `supabase.dfy`.
- **Supabase client cache** (`supabase_context.dfy`), with the provider and
  the server-side client constructors.
- **UI components.** The two calendar editors are in `main_calendar.dfy` and
  `dashboard_calendar.dfy`. The form of TaskInputSidebar is in `task_sidebar.dfy`.

Databases, verifiers, the rate limiter and the clock are services outside the
model. Each becomes a parameter:

- A database request takes its outcome from a given reply or a sequence of
  outcomes.
- A signature check is a given verdict.
- The rate limiter is a given function from limit key to verdict.
- The current time is a given value.

Where the source changes state step by step, the state is a class. This
applies to:

- the Clerk database;
- the audit table;
- each hook;
- the settings page;
- the client cache;
- the calendars;
- the sidebar's form.

Each method is proved equal to a step function of the state before it. The
lemmas are stated about those step functions.

## Model

| member | source | states |
|---|---|---|
| Common.TrimStart | app/api/webhooks/clerk/route.ts:389-392 | The result is a suffix of the input, starts with no white space, and only white space was dropped. |
| Common.TrimEnd | app/api/webhooks/clerk/route.ts:389-392 | The result is a prefix of the input, ends with no white space, and only white space was dropped. |
| Common.TrimProperties | components/main/edit-calendar.tsx:191 | `s.trim()` is empty exactly when `s` is all white space; a non-empty trimmed string neither starts nor ends with white space. |
| Common.TrimIdempotent | app/dashboard/settings/page.tsx:215-220 | Trimming a trimmed string changes nothing. |
| Common.BeforeColon | app/dashboard/settings/page.tsx:103-104 | `split(':')[0]` is the colon-free prefix before the first colon, or the whole string when there is none. |
| Common.NatToString | app/dashboard/settings/page.tsx:491 | `String(n)` is a non-empty digit string without a leading zero except for 0 itself. |
| Common.NatToStringRoundTrip | app/dashboard/settings/page.tsx:491 | Reading a printed natural number back gives the number. |
| Common.NatToStringInjective | app/dashboard/settings/page.tsx:491 | Different numbers print differently. |
| Common.LeadingDigits | app/dashboard/settings/page.tsx:190 | The longest all-digit prefix of the string. |
| Common.LeadingHexDigits | app/dashboard/settings/page.tsx:103-104 | The longest hexadecimal-digit prefix of the string, which the `0x` branch of `parseInt` reads. |
| Common.ParseIntLeadingDigits | app/dashboard/settings/page.tsx:103-104 | `parseInt` of a string starting with a digit run reads exactly that run, whatever follows it. |
| Common.ParseIntOfNatToString | app/dashboard/settings/page.tsx:190 | `parseInt` reads back what `String(n)` printed. |
| Common.NumberValueOfNatToString | app/dashboard/settings/page.tsx:252-253 | `Number` reads back what `String(n)` printed. |
| Common.NumberValueOfDigits | app/dashboard/settings/page.tsx:252-253 | `Number` of a non-empty run of decimal digits is the value the digits spell. |
| Common.DigitIsNotWhitespace | app/dashboard/settings/page.tsx:252-253 | No decimal digit counts as white space. |
| Common.TrimOfDigits | app/dashboard/settings/page.tsx:252-253 | Trimming a digit string leaves it as it is. |
| Common.Member | app/api/user/profile/route.ts:119-140 | Property access throws a TypeError exactly on null, and gives `undefined` exactly when the value is not an object holding the key. |
| Common.Overlay | hooks/useSettings.ts:168-171 | `{...base, ...patch}`: the keys are the union, the patch's values win and the base's other keys stay. |
| Supabase.MatchesSnoc | lib/audit-log.ts:52-72 | Adding one filter to a chain narrows the rows it selects by exactly that filter. |
| Supabase.Where | lib/audit-log.ts:58-72 | `.eq`/`.ilike`/`.gte`/`.lte` appends one filter; a row matches the new query iff it matched the old one and meets the new condition. `.ilike` is SQL ILIKE as PostgREST sends it: `%` and `*` match any run, `_` one character, backslash escapes, ASCII letters compared without case. |
| Supabase.ILikeAnything | lib/trpc/routers/user.ts:365 | The pattern `%` matches every string. |
| Supabase.ILikeLiteralPrefix | lib/trpc/routers/user.ts:365 | A prefix free of `%`, `*`, `_` and backslash of a pattern matches exactly a prefix of the same length that agrees with it up to case. |
| Supabase.ILikeContains | lib/trpc/routers/user.ts:365 | `%q%` with a q free of `%`, `*`, `_` and backslash matches a string iff q occurs in it at some offset, up to case. |
| Supabase.StarIsWildcard | lib/trpc/routers/user.ts:365 | PostgREST reads `*` in a like pattern as `%`, so the search "a*b" finds "axb". |
| Supabase.From | lib/audit-log.ts:52-56 | `from(t).select(c)` has no filter and selects every row. |
| ClerkWebhook.PrimaryEmail | app/api/webhooks/clerk/route.ts:521 | The first e-mail address, present exactly when it exists and is non-empty. |
| ClerkWebhook.RowsNotOwnedBy | app/api/webhooks/clerk/route.ts:562 | Keeps exactly the rows whose owner is not the deleted user, and never grows the table. |
| ClerkWebhook.WithoutUser | app/api/webhooks/clerk/route.ts:562 | Deleting a user removes the user row and, by the cascade, exactly that user's preferences and schedules. Other users' rows and the audit log stay. |
| ClerkWebhook.ClerkDatabase.constructor | app/api/webhooks/clerk/route.ts:526-571 | The database starts from the given store with no requests sent. |
| ClerkWebhook.ClerkDatabase.Execute | app/api/webhooks/clerk/route.ts:526-571 | One request applies its write when applied, and leaves the tables unchanged when rejected or thrown; it reports the throw. |
| ClerkWebhook.RunWrites | app/api/webhooks/clerk/route.ts:526-556 | Sending requests in order stops at the first throw; a run throws exactly when one of its outcomes is a throw. |
| ClerkWebhook.RunWritesAppend | app/api/webhooks/clerk/route.ts:526-556 | Running `a + b` runs `a` and then, unless it threw, `b`. |
| ClerkWebhook.RunWritesSnoc | app/api/webhooks/clerk/route.ts:544-551 | Running one more request after a run. |
| ClerkWebhook.RunWritesAllApplied | app/api/webhooks/clerk/route.ts:526-556 | With every outcome applied, a run is the plain sequence of effects. |
| ClerkWebhook.ApplyAllAppend | app/api/webhooks/clerk/route.ts:544-551 | Applying `a + b` applies `a` and then `b`. |
| ClerkWebhook.DefaultSchedules | app/api/webhooks/clerk/route.ts:261-267 | Five rows, Monday to Friday in order, each 09:00 to 17:00 (the hours of lines 476-479), for the given user. |
| ClerkWebhook.CreatedWrites | app/api/webhooks/clerk/route.ts:526-556 | The user, the preferences, one schedule per default weekday and the audit entry, in that order. |
| ClerkWebhook.ApplyScheduleInserts | app/api/webhooks/clerk/route.ts:544-551 | One insert per row appends exactly those rows, in order. |
| ClerkWebhook.Issue | app/api/webhooks/clerk/route.ts:526-571 | Sending one more request keeps the database equal to the run of all requests sent so far. |
| ClerkWebhook.RunCreated | app/api/webhooks/clerk/route.ts:526-556 | The `for` loop over the default weekdays: the store is the run of the created requests, stopping at the first throw. |
| ClerkWebhook.RunDeleted | app/api/webhooks/clerk/route.ts:563-568 | The store is the run of the delete and the audit insert, stopping at a throw. |
| ClerkWebhook.Post | app/api/webhooks/clerk/route.ts:490-579 | The response and the new store are those of the POST specification. |
| ClerkWebhook.PostMissingHeaders | app/api/webhooks/clerk/route.ts:498-500 | A missing svix header gives 400 and leaves the store unchanged. |
| ClerkWebhook.PostUnverified | app/api/webhooks/clerk/route.ts:503-512 | A rejected signature gives 400 and nothing is written. |
| ClerkWebhook.PostCreatedWithoutEmail | app/api/webhooks/clerk/route.ts:520-523 | `user.created` without a first e-mail address gives 400 and nothing is written. |
| ClerkWebhook.PostCreatedEffect | app/api/webhooks/clerk/route.ts:526-556 | With every request applied, the store gains the user row with the e-mail, the default preferences, exactly the five default schedules and one audit entry, and the answer is 200. |
| ClerkWebhook.PostDeletedEffect | app/api/webhooks/clerk/route.ts:561-574 | The user row leaves `users` and the cascade removes that user's preferences and schedules. One audit entry is added, and the answer is 200 even when no row matched. |
| ClerkWebhook.PostOtherEvent | app/api/webhooks/clerk/route.ts:519-574 | Any other event type writes nothing and answers 200. |
| ClerkWebhook.PostFailsOnlyOnThrow | app/api/webhooks/clerk/route.ts:575-578 | POST answers 500 exactly when the payload has no data or a request throws; error results never change the status. |
| ClerkWebhook.InitSupabaseClient | app/api/webhooks/clerk/route.ts:233-258 | Fails exactly when the URL or the key is missing, with a message that starts with the environment error type. |
| ClerkWebhook.ClassifyUpdateError | app/api/webhooks/clerk/route.ts:438-458 | Connection, duplicate-key and DATABASE_ERROR-prefixed messages give 500 DATABASE_ERROR; every other message gives 400 USER_CREATION_ERROR. |
| ClerkWebhook.HandleUserCreation | app/api/webhooks/clerk/route.ts:269-339 | The reply and the store are those of the creation specification. |
| ClerkWebhook.HandleUserDeletion | app/api/webhooks/clerk/route.ts:341-385 | The reply and the store are those of the deletion specification. |
| ClerkWebhook.HandleUserUpdate | app/api/webhooks/clerk/route.ts:387-460 | The reply and the store are those of the update specification. |
| ClerkWebhook.SyncUserWithSupabase | app/api/webhooks/clerk/route.ts:589-640 | The dispatcher's reply and store are those of the handler for the event type. |
| ClerkWebhook.FullNameOfNoNames | app/api/webhooks/clerk/route.ts:389-392 | Missing name parts count as empty, so no names give an empty full name. |
| ClerkWebhook.FullNameOfTrimmedParts | app/api/webhooks/clerk/route.ts:389-392 | Two present parts without surrounding white space give the two joined by one space. |
| ClerkWebhook.FullNameIsTrimmed | app/api/webhooks/clerk/route.ts:389-392 | The full name never starts or ends with white space. |
| ClerkWebhook.UpdateWritesOnlyThreeColumns | app/api/webhooks/clerk/route.ts:402-413 | An applied update changes only the user's e-mail, full name and updated_at; every other column, row and table stays. |
| ClerkWebhook.UpdateRejectionIsDatabaseError | app/api/webhooks/clerk/route.ts:438-458 | Database failures of an update are answered 500 DATABASE_ERROR. |
| ClerkWebhook.UpdateWithoutEmailThrows | app/api/webhooks/clerk/route.ts:396-400 | An updated event without an e-mail address throws out of the handler and the dispatcher and writes nothing. |
| ClerkWebhook.DeletionOutcomes | app/api/webhooks/clerk/route.ts:341-385 | A failed deletion gives 500 USER_DELETION_ERROR and keeps the store. An applied one removes that user row and, by the cascade, that user's preferences and schedules. |
| ClerkWebhook.CreationKeepsUnnamedColumns | app/api/webhooks/clerk/route.ts:277-284 | The upserted user carries the first email. With no email the key is left out of the body, so a stored email stays; a stored full name stays too. |
| ClerkWebhook.CreationIgnoresLaterRejections | app/api/webhooks/clerk/route.ts:269-339 | Error results on preferences and schedules are ignored; an error on the user row fails the creation. |
| ClerkWebhook.SyncOtherEvent | app/api/webhooks/clerk/route.ts:589-640 | Other event types are answered 200 and write nothing. |
| StripeWebhook.ActionFor | app/api/webhooks/route.ts:65-87 | Subscription events call the status-change action with `createAction` exactly for `customer.subscription.created`; a checkout acts only in subscription mode, then with `createAction` true. |
| StripeWebhook.Post | app/api/webhooks/route.ts:24-101 | A missing signature header or secret gives 400 before construction. Every answer is 400 or 200, and an action is called only on a constructed event, the one `ActionFor` names. |
| StripeWebhook.ConstructionFailure | app/api/webhooks/route.ts:35-38 | A construction failure answers 400 with its message and calls nothing. |
| StripeWebhook.UnsupportedEventType | app/api/webhooks/route.ts:98-100 | A type outside the ten relevant events gets a default-status "Unsupported event type" answer and calls nothing. |
| StripeWebhook.RelevantEventAnswer | app/api/webhooks/route.ts:91-101 | A relevant event answers 400 exactly when its called action threw, and `{received: true}` otherwise. |
| StripeWebhook.RelevantEventsCallAnAction | app/api/webhooks/route.ts:11-22 | Every relevant type except a non-subscription checkout calls exactly one action. |
| Errors.CreateErrorResponse | lib/errors.ts:44-52 | The response carries the message and code, and a `details` key exactly when details were given. |
| Errors.HandleDatabaseError | lib/errors.ts:67-89 | 23503 gives 400, 23505 gives 409 and 42501 gives 403, each with its fixed message and no details. Any other or missing code gives 500 with the original error. |
| Errors.HandleAuthError | lib/errors.ts:92-105 | Always 401. "webhook" is looked for before "token", and only the generic case carries details. |
| Errors.ErrorTypeValuesDistinct | lib/errors.ts:107-116 | The category strings are pairwise distinct. |
| ProfileValidation.ProfileTimeGrammar | lib/validations/user-profile.ts:3 | The profile regex accepts exactly the times 00:00-23:59 written `H:MM` or `HH:MM`. |
| ProfileValidation.ScheduleTimeGrammar | lib/trpc/routers/user.ts:20-21 | The work-schedule regex accepts exactly the times 00:00-23:59 written `HH:MM`. |
| ProfileValidation.ScheduleTimeIsProfileTime | lib/trpc/routers/user.ts:20-21 | Every strict schedule time is a profile time. |
| ProfileValidation.TimeGrammarExamples | lib/validations/user-profile.ts:3 | "9:05" passes the profile grammar and fails the schedule grammar; "24:00" and "12:60" fail both. |
| ProfileValidation.WorkingDayOrderNotChecked | lib/validations/user-profile.ts:5-9 | A day whose start is after its end is still valid. |
| ProfileValidation.WorkingDaysNeedEveryWeekday | lib/validations/user-profile.ts:11-19 | A record missing any one weekday is rejected. |
| ProfileValidation.SettingsValidityConditions | lib/validations/user-profile.ts:21-25 | Valid settings have at least one category and one of the four work types. |
| ProfileValidation.ProfileNeedsValidParts | lib/validations/user-profile.ts:27-34 | A valid profile has valid settings and valid working days. |
| Pagination.ParsePage | lib/trpc/routers/user.ts:26-29 | Accepted pages have page ≥ 1 and 1 ≤ pageSize ≤ 100, with defaults 1 and 20; anything else is refused. |
| Pagination.WindowSize | lib/trpc/routers/user.ts:303-304 | The window holds exactly pageSize offsets and starts at (page − 1)·pageSize. |
| Pagination.PagesAbut | lib/trpc/routers/user.ts:303-304 | The next page starts right after this one ends. |
| Pagination.OffsetOnOnePage | lib/trpc/routers/user.ts:303-304 | Each row offset belongs to exactly one page. |
| Pagination.TotalPages | lib/trpc/routers/user.ts:312 | ceil(count / pageSize) for a positive count and 1 for 0 or null: the fewest pages that hold every row. |
| Pagination.LastPageHoldsLastRow | lib/trpc/routers/user.ts:312 | The last reported page is the one that holds the last row. |
| Pagination.ListResult | lib/trpc/routers/user.ts:305-313 | An error is thrown with its message; otherwise the rows come back with page, size, count and page count. |
| TrpcUser.ParsePreferencesPatch | lib/trpc/routers/user.ts:161 | `preferencesSchema.partial()` accepts an object whose present schema keys are valid, and keeps only those keys. |
| TrpcUser.GetPreferencesOutcomes | lib/trpc/routers/user.ts:118-155 | Only a non-PGRST116 fetch error fails; a missing row yields the defaults after inserting them; a found row is returned. |
| TrpcUser.GetPreferencesToleratesNotFound | lib/trpc/routers/user.ts:128-151 | A not-found fetch inserts and returns the defaults. |
| TrpcUser.UpdatePreferencesMerge | lib/trpc/routers/user.ts:176-184 | Input keys override and other stored keys stay. The base is the defaults when there is no row. |
| TrpcUser.UpdatePreferencesFromNothing | lib/trpc/routers/user.ts:176-184 | With no stored row, an empty input writes exactly the defaults. |
| TrpcUser.NotificationUpdateKeepsOtherKeys | lib/trpc/routers/user.ts:282 | Only the `notifications` key changes, and it becomes the input. |
| TrpcUser.NotificationUpdateNeedsRow | lib/trpc/routers/user.ts:273-289 | Even a not-found fetch is an error here, and nothing is written. |
| TrpcUser.GetNotifications | lib/trpc/routers/user.ts:294-314 | Sends the caller's notifications query, narrowed by a boolean `is_read` and a truthy `type`, newest first, over the page window. |
| TrpcUser.GetAuditLogs | lib/trpc/routers/user.ts:333-353 | Sends the caller's own audit-log query, narrowed by a truthy `action` and a boolean `success`; the `user_id` input is ignored. |
| TrpcUser.AdminListUsers | lib/trpc/routers/user.ts:358-377 | Lists every user, or those whose email matches `%search%` under ILIKE; refused without `isAdmin`. |
| TrpcUser.AdminSearchMatchesSubstring | lib/trpc/routers/user.ts:365 | A search without `%`, `*`, `_` or backslash keeps exactly the rows whose email contains it, ignoring the case of ASCII letters. |
| TrpcUser.AdminListAuditLogs | lib/trpc/routers/user.ts:411-432 | Lists any user's audit log, narrowed by truthy `user_id`/`action` and a boolean `success`; refused without `isAdmin`. |
| TrpcUser.AdminListSubscriptions | lib/trpc/routers/user.ts:437-457 | Lists every subscription, narrowed by truthy `status`/`user_id`; refused without `isAdmin`. |
| TrpcUser.AdminGuard | lib/trpc/routers/user.ts:383 | Authentication first, then the uuid input, then `isAdmin`; FORBIDDEN exactly when the first two pass and the caller is not an admin. |
| TrpcUser.AdminGetUserProfile | lib/trpc/routers/user.ts:382-392 | Reads the one user row with that id after the guard, and returns that row or null; a read error is thrown with its message. When refused, nothing is sent and the guard's error is thrown. |
| TrpcUser.AdminDeleteUser | lib/trpc/routers/user.ts:397-406 | Deletes the user row with that id after the guard. Nothing is sent when refused. |
| TrpcUser.AdminUpdateUser | lib/trpc/routers/user.ts:462-475 | Writes the optional email and a fresh updated_at to that row, never the id. Nothing is sent when refused. |
| TrpcUser.CreatedContextNeverAdmin | lib/trpc/context.ts:25-29 | The context never sets `isAdmin`, so every single-user admin procedure is refused before any request. |
| TrpcSchedule.ParseSchedule | lib/trpc/routers/schedule.ts:4-13 | The required keys are present and every present schema key is valid. Other keys are dropped, and `ai_generated` defaults to true. |
| TrpcSchedule.OwnScheduleMatches | lib/trpc/routers/schedule.ts:51-52 | The id and owner filters select exactly the caller's row with that id. |
| TrpcSchedule.ListSchedules | lib/trpc/routers/schedule.ts:24-41 | The caller's schedules by ascending start time, over the page window. |
| TrpcSchedule.ListWindow | lib/trpc/routers/schedule.ts:32-39 | The window and page count are those of the shared page arithmetic. |
| TrpcSchedule.GetSchedule | lib/trpc/routers/schedule.ts:46-56 | Reads the caller's schedule with that id, and returns that row or null; a read error is thrown with its message. Without a session or with a non-uuid id nothing is sent. |
| TrpcSchedule.CreateSchedule | lib/trpc/routers/schedule.ts:61-68 | Inserts the parsed input with the caller as owner. |
| TrpcSchedule.CreatedRow | lib/trpc/routers/schedule.ts:65 | The row is the caller's and is ai-generated unless the input says otherwise. |
| TrpcSchedule.UpdateSchedule | lib/trpc/routers/schedule.ts:73-83 | Refuses without a session or with an input failing the schema. An input with a truthy id always sends one update of the caller's schedule with that id. The update's values are the parsed input with a fresh updated_at. The result is an error exactly when the update fails. |
| TrpcSchedule.UpdateNeedsId | lib/trpc/routers/schedule.ts:75 | An update without an id throws before any write. |
| TrpcSchedule.UpdateDefaultsAiGenerated | lib/trpc/routers/schedule.ts:10 | An update without `ai_generated` writes `ai_generated: true`. |
| TrpcSchedule.DeleteSchedule | lib/trpc/routers/schedule.ts:88-97 | Deletes the caller's schedule with that id. |
| TrpcSchedule.GenerateFromNaturalLanguage | lib/trpc/routers/schedule.ts:102-116 | Exactly one event, echoing the prompt, whose end is its second clock reading plus one hour. |
| TrpcSchedule.GeneratedEventLastsAnHour | lib/trpc/routers/schedule.ts:106-115 | When both clock readings agree, the event lasts exactly 3 600 000 ms. |
| ApiRoute.TooManyRequests | app/api/user/profile/route.ts:41-52 | A 429 with the reset time in the body and the limit, remaining and reset headers. |
| ApiRoute.Gate | app/api/user/profile/route.ts:28-53 | 401 without a session user. Otherwise a denial of `prefix + userId` gives the 429, and a limiter throw gives the handler's 500. |
| ApiRoute.OrUnknown | app/api/user/profile/route.ts:18-24 | A header, or 'unknown' when it is absent or empty. |
| AuditLog.Stamped | lib/audit-log.ts:26-29 | The stored created_at is the fresh timestamp, overriding the entry's own. |
| AuditLog.AuditLogTable.constructor | lib/audit-log.ts:22-41 | The table holds the given initial rows. |
| AuditLog.AuditLogTable.CreateAuditLog | lib/audit-log.ts:22-41 | Answers true exactly when the insert reports no error and does not throw; the stamped entry is stored exactly then. |
| AuditLog.LogQueryMeaning | lib/audit-log.ts:52-80 | The query reads the user's `audit_logs`, newest first, and matches exactly the rows meeting the given filters. A range is applied only for a truthy offset and ends at offset + (limit or 10) − 1. |
| AuditLog.GetAuditLogs | lib/audit-log.ts:43-94 | Sends that query and returns its rows, or null on an error or a throw. |
| ProfileRoute.Patch | app/api/user/profile/route.ts:86-223 | The response and requests of the PATCH ladder, with its audit entry appended when the audit insert works. |
| ProfileRoute.Put | app/api/user/profile/route.ts:225-339 | The response and requests of the PUT ladder, with its audit entry appended when the audit insert works. |
| ProfileRoute.ProfileNeedsSession | app/api/user/profile/route.ts:28-34 | Without a session user every handler answers 401 before rate limiting, sends nothing and records nothing. |
| ProfileRoute.ProfileRateLimited | app/api/user/profile/route.ts:37-53 | A denied limit key gives 429 with the limiter's numbers, and nothing is sent or recorded. |
| ProfileRoute.GetProfileOutcomes | app/api/user/profile/route.ts:55-74 | GET answers 500 on a database error, 404 without a row and the row otherwise, and never writes. |
| ProfileRoute.PatchChecksSettingsFirst | app/api/user/profile/route.ts:119-138 | Invalid truthy settings give 400 and one failure entry for the settings, before the working days are looked at, with no write. |
| ProfileRoute.PatchChecksWorkingDays | app/api/user/profile/route.ts:140-159 | With acceptable settings, invalid truthy working days give 400 and one failure entry, with no write. |
| ProfileRoute.PatchWrite | app/api/user/profile/route.ts:162-198 | After validation, PATCH writes the body plus a fresh updated_at to the caller's row. A failure gives 500 and a failure entry; success records the body's keys. |
| ProfileRoute.PutForcesOwner | app/api/user/profile/route.ts:258-286 | PUT validates and writes the caller's row whatever `user_id` the body names. |
| ProfileRoute.ReplacementRowOwner | app/api/user/profile/route.ts:282-286 | The validated object and the written row both name the session user, and the row carries the fresh time. |
| ProfileRoute.PutRejects | app/api/user/profile/route.ts:256-277 | An object failing the profile schema gives 400 and one failure entry, and is not written. |
| ProfileRoute.PutUpserts | app/api/user/profile/route.ts:280-315 | A valid object is upserted as the caller's replacement row. |
| PreferencesRoute.PreferencesSchemaExamples | app/api/user/preferences/route.ts:16-51 | The schema accepts `{}` and unknown keys, and rejects a first day of week of 7 and a non-object. |
| PreferencesRoute.UpsertRow | app/api/user/preferences/route.ts:165-169 | The row names the session user and carries the body's other keys and the fresh updated_at. |
| PreferencesRoute.BodyRetargetsUpsert | app/api/user/preferences/route.ts:165-169 | As written, a valid body naming another user makes the upsert target that user's row. |
| PreferencesRoute.Patch | app/api/user/preferences/route.ts:113-220 | Corrected behaviour (see Findings): the response and requests of the PATCH ladder, with the upsert row owned by the session user. Its audit entry is appended when the audit insert works. |
| PreferencesRoute.PreferencesGate | app/api/user/preferences/route.ts:63-87 | Both handlers answer 401 without a session user and 429 on denial, sending and recording nothing. |
| PreferencesRoute.GetPreferencesOutcomes | app/api/user/preferences/route.ts:89-103 | GET answers 500 on a database error and otherwise the row or `{}`. |
| PreferencesRoute.PatchPreferencesOutcomes | app/api/user/preferences/route.ts:144-196 | Corrected behaviour (see Findings). An invalid body gives 400 after one failure entry, with no upsert. A valid one is upserted as the caller's row; a failure gives 500 and a failure entry, and success records the body's keys. |
| SupabaseContext.TokenHeaders | utils/supabase/context.tsx:32-36 | A bearer header and JSON accept for a truthy token, no headers otherwise. |
| SupabaseContext.ClientCache.constructor | utils/supabase/context.tsx:15-16 | No cached client and a null current token. |
| SupabaseContext.ClientCache.GetSupabaseClient | utils/supabase/context.tsx:18-55 | The cache and the returned client are those of the cache step function. |
| SupabaseContext.CacheStaysValid | utils/supabase/context.tsx:18-55 | The cache starts valid and every call keeps it valid. |
| SupabaseContext.NewClientOnlyOnChange | utils/supabase/context.tsx:20-39 | A new client is built exactly when the token differs from the current one or nothing is cached, and the current token becomes the one asked for. |
| SupabaseContext.SameTokenSameClient | utils/supabase/context.tsx:41 | With a client cached, the same token returns that same client and changes nothing. |
| SupabaseContext.NullTokenNeverCached | utils/supabase/context.tsx:41-54 | From the initial state, a null token gives a fresh uncached client on every call. |
| SupabaseContext.AuthorizationIffToken | utils/supabase/context.tsx:32-36 | The returned client carries a bearer header exactly when the token is truthy, and then for that token. |
| SupabaseContext.RunKeepsCache | utils/supabase/context.tsx:18-55 | Over any run of calls the cache stays valid, at most one serial is used per call, and every client is built for its own token. |
| SupabaseContext.ProviderToken | utils/supabase/context.tsx:61-78 | Null when signed out or when the token fetch throws; otherwise the fetched token. |
| SupabaseContext.UseSupabase | utils/supabase/context.tsx:89-95 | Outside a provider an error; inside, the provider's client. |
| SupabaseContext.ServerClient | utils/supabase/context.tsx:98-119 | Refused exactly when the URL or service key is unset or empty; otherwise the service key is both the key and the bearer token. |
| SupabaseContext.BrowserClient | utils/supabase/context.tsx:121-139 | The anonymous key and no bearer token. |
| SupabaseContext.ClerkSsrClient | utils/supabase/context.tsx:141-174 | A token-fetch error is passed on, then unset settings are refused, and otherwise the client carries the fetched token. |
| WorkingDaysHook.DefaultWorkingDays | hooks/useWorkingDays.ts:8-16 | Seven entries with dayOfWeek '0'..'6' in order, working exactly for '1'..'5', all 09:00-17:00. |
| WorkingDaysHook.DaysJson | hooks/useWorkingDays.ts:107-110 | The stored form is an array with one stored day per day, in order. |
| WorkingDaysHook.DayJsonRoundTrip | hooks/useWorkingDays.ts:107-110 | Reading a stored day back gives the day. |
| WorkingDaysHook.DaysJsonInjective | hooks/useWorkingDays.ts:107-110 | Different lists are stored as different values. |
| WorkingDaysHook.Hook.constructor | hooks/useWorkingDays.ts:18-22 | The hook starts with an empty list and loading. |
| WorkingDaysHook.Hook.Update | hooks/useWorkingDays.ts:96-125 | The new state and requests are those of the update step function. |
| WorkingDaysHook.Hook.Fetch | hooks/useWorkingDays.ts:24-67 | The new state and requests are those of the load step function. |
| WorkingDaysHook.Hook.Changed | hooks/useWorkingDays.ts:80-87 | The new state is that of the realtime step function. |
| WorkingDaysHook.UpdateWithoutUser | hooks/useWorkingDays.ts:98 | Without a signed-in user an update sends and changes nothing. |
| WorkingDaysHook.UpdateRejectsMalformed | hooks/useWorkingDays.ts:103-105 | A non-array or a list whose length is not 7 is not written, and the list stays. |
| WorkingDaysHook.UpdateTakesEffectOnlyOnSuccess | hooks/useWorkingDays.ts:107-119 | The list becomes the new one exactly when the write reports no error, and the write is sent exactly for a user and a valid week. |
| WorkingDaysHook.UpdateKeepsAWeek | hooks/useWorkingDays.ts:103-115 | After a successful update the hook holds a list of seven days. |
| WorkingDaysHook.LoadNotFound | hooks/useWorkingDays.ts:42-53 | A missing row is created with the default week, which becomes the state when the insert works; any other failure leaves the list. |
| WorkingDaysHook.LoadEndsLoading | hooks/useWorkingDays.ts:24-67 | Before Clerk has loaded nothing happens; once it has, loading ends. |
| WorkingDaysHook.OnChangeReplaces | hooks/useWorkingDays.ts:82-86 | A change replaces the list only when it carries one, and a repeated delivery changes nothing more. |
| SettingsHook.PatchFields | hooks/useSettings.ts:168-171 | The stored form of a patch uses only keys of the settings. |
| SettingsHook.MergeIsSpread | hooks/useSettings.ts:168-171 | The merge is the object spread of the stored forms: the patch's keys win and the others keep the current values. |
| SettingsHook.MergeProperties | hooks/useSettings.ts:168-171 | Merging a whole value gives that value, an empty patch keeps the current one, and merging twice is merging once. |
| SettingsHook.Hook.constructor | hooks/useSettings.ts:14-20 | The hook starts with the default settings, loading, with no error. |
| SettingsHook.Hook.Update | hooks/useSettings.ts:114-200 | The new state and requests are those of the update step function. |
| SettingsHook.Hook.Fetch | hooks/useSettings.ts:22-85 | The new state and requests are those of the load step function. |
| SettingsHook.Hook.Changed | hooks/useSettings.ts:98-105 | The new state is that of the realtime step function. |
| SettingsHook.UpdateWithoutUser | hooks/useSettings.ts:116-120 | Without a user id an update sends and changes nothing. |
| SettingsHook.UpdateWritesMerge | hooks/useSettings.ts:165-171 | The written settings are the stored ones (or the defaults) overlaid with the patch, and become the state only when the write works. |
| SettingsHook.UpdateSavesMerge | hooks/useSettings.ts:175-195 | The settings become the merge exactly when the update saves it, and are otherwise unchanged. |
| SettingsHook.UpdateCreatesMissingProfile | hooks/useSettings.ts:134-159 | A missing row is first created with the default settings and the default week, and the merge is then over the defaults. |
| SettingsHook.LoadFallbacks | hooks/useSettings.ts:44-72 | Loading uses the defaults when the row has no settings, reads once more when there is no row, and records a failure otherwise. |
| SettingsHook.OnChangeReplaces | hooks/useSettings.ts:98-105 | A change replaces the settings and clears the error only when it carries settings. |
| SettingsPage.FormatTime | app/dashboard/settings/page.tsx:185-194 | On a 24-hour clock the text itself. Otherwise the hour before the colon on a 12-hour clock, with ":00" and AM or PM. |
| SettingsPage.BeforeColonOf | app/dashboard/settings/page.tsx:189 | The text before a first colon that follows a colon-free prefix is that prefix. |
| SettingsPage.TwoDigitsValue | app/dashboard/settings/page.tsx:190 | Two decimal digits are read as the number they spell. |
| SettingsPage.HourOptionParses | app/dashboard/settings/page.tsx:490-492 | Each hour option `HH:00` is read back by `parseInt` as its hour. |
| SettingsPage.TwelveHourOf | app/dashboard/settings/page.tsx:192 | The displayed hour is in 1..12 and congruent to the hour modulo 12. |
| SettingsPage.FormatTimeTwelveHour | app/dashboard/settings/page.tsx:189-193 | For an hour 0-23 the text is `d:00 P` with d in 1..12, PM exactly from noon; 0 gives "12:00 AM" and 12 gives "12:00 PM". |
| SettingsPage.TwelveHourTextInjective | app/dashboard/settings/page.tsx:193 | Two equal 12-hour texts have the same hour number and period. |
| SettingsPage.FormatTimeInjective | app/dashboard/settings/page.tsx:490-492 | Different hour options are shown differently on a 12-hour clock. |
| SettingsPage.TotalWeeklyHours | app/dashboard/settings/page.tsx:243-264 | The loop's total is the sum over worked days with both times of max(0, end hour − start hour), and is never negative. |
| SettingsPage.WeeklyHoursAppend | app/dashboard/settings/page.tsx:246-261 | The total of two lists is the sum of their totals. |
| SettingsPage.WeeklyHoursIgnoresMinutes | app/dashboard/settings/page.tsx:252-256 | Weeks that agree on worked days, on which times are given and on the hour before each colon have the same total. |
| SettingsPage.WorkedDayHours | app/dashboard/settings/page.tsx:252-256 | A worked day between two hour options adds their difference, or nothing when it is negative. |
| SettingsPage.FiveDayWeek | app/dashboard/settings/page.tsx:243-264 | A week whose Monday to Friday add n hours each and whose weekend adds nothing holds 5n hours. |
| SettingsPage.OfficeWeekHours | app/dashboard/settings/page.tsx:243-264 | Seven days with the same two hour options, Monday to Friday worked, hold five times their difference. |
| SettingsPage.DefaultWeekHours | hooks/useWorkingDays.ts:8-16 | The default week holds forty hours. |
| SettingsPage.DayUpdated | app/dashboard/settings/page.tsx:94-99 | Only the entries of that weekday take the updates; the length and every other entry stay. |
| SettingsPage.WorkTypeDays | app/dashboard/settings/page.tsx:279-287 | Full time makes exactly '1'..'5' working and every entry 09:00-17:00. Any other value keeps the list. The length is kept. |
| SettingsPage.FullTimeWeekHours | app/dashboard/settings/page.tsx:279-287 | Resetting a week listing each weekday once, in order, gives the default week of forty hours. |
| SettingsPage.DayOrDefault | app/dashboard/settings/page.tsx:451-456 | The first entry listed for a weekday, or a day off from 09:00 to 17:00. |
| SettingsPage.ValidateCategory | app/dashboard/settings/page.tsx:201-212 | Refuses a blank name and an exact duplicate with their messages; an accepted name clears the message to "". |
| SettingsPage.WithoutCategory | app/dashboard/settings/page.tsx:234 | No entry equal to the category remains, and every other entry does, in order. |
| SettingsPage.WithoutCategoryKeepsOthers | app/dashboard/settings/page.tsx:234 | Removal keeps exactly the other entries, in their order. |
| SettingsPage.RemoveAfterAdd | app/dashboard/settings/page.tsx:215-234 | Removing right after appending a new name takes off what was appended. |
| SettingsPage.DisplaySettingsFallbacks | app/dashboard/settings/page.tsx:83-87 | A whole optimistic copy is what is shown; a key missing from both falls back to false, 'full-time' or []. |
| SettingsPage.Page.constructor | app/dashboard/settings/page.tsx:52-71 | Before the settings effect first runs, the page has an empty optimistic list, its default optimistic settings, no error, not updating and an empty category field. |
| SettingsPage.Synced | app/dashboard/settings/page.tsx:74-79 | After the effect the page shows exactly the hook's settings and no error; the days, the field and the updating flag stay. |
| SettingsPage.Page.SyncSettings | app/dashboard/settings/page.tsx:74-79 | The page becomes the synced page for the hook's current settings. |
| SettingsPage.Page.TypeCategory | app/dashboard/settings/page.tsx:389-392 | The field holds the typed text. |
| SettingsPage.Page.SendDays | app/dashboard/settings/page.tsx:110-117 | Corrected behaviour (see Findings): the list is sent to the working-days hook, and the optimistic copy is dropped when it was not saved. |
| SettingsPage.Page.HandleWorkingDayUpdate | app/dashboard/settings/page.tsx:90-121 | The page and hook states are those of the corrected day-update step. |
| SettingsPage.Page.HandleSettingsUpdate | app/dashboard/settings/page.tsx:123-140 | The page and hook states are those of the corrected settings-update step. |
| SettingsPage.Page.HandleWorkTypeChange | app/dashboard/settings/page.tsx:266-299 | Corrected behaviour (see Findings): the page and both hooks are those of the work-type step: the settings write, then the reset list. |
| SettingsPage.Page.HandleAddCategory | app/dashboard/settings/page.tsx:214-228 | Corrected behaviour (see Findings): the page and hook states are those of the add-category step. |
| SettingsPage.Page.HandleRemoveCategory | app/dashboard/settings/page.tsx:230-241 | Corrected behaviour (see Findings): the page and hook states are those of the remove-category step. |
| SettingsPage.DayUpdateEdits | app/dashboard/settings/page.tsx:102-108 | A day edit changes only that weekday's entries and keeps the length. A start hour not before the end hour is refused with no write and the optimistic list cleared. |
| SettingsPage.DayUpdateShowsStoredDays | app/dashboard/settings/page.tsx:110-117 | After a day edit the page shows exactly the list the hook holds. |
| SettingsPage.FailedDayWriteStaysDisplayed | app/dashboard/settings/page.tsx:112-117 | As written, a failed write leaves a list on screen that the hook does not hold, with no error. |
| SettingsPage.SettingsUpdateShowsStored | app/dashboard/settings/page.tsx:127-136 | After a settings change the page shows what the hook holds, and an error exactly when the hook did not save. |
| SettingsPage.FailedSettingsWriteStaysDisplayed | app/dashboard/settings/page.tsx:133-136 | As written, a failed settings write leaves unsaved settings on screen with no error. |
| SettingsPage.WorkTypeChangeShowsStored | app/dashboard/settings/page.tsx:266-299 | Corrected behaviour (see Findings): the hook keeps its list or takes the shown list reset for the new type, and the page shows what the hook holds. |
| SettingsPage.AddCategoryAppends | app/dashboard/settings/page.tsx:214-228 | A blank name does nothing. Otherwise the trimmed name is saved at the end of the shown categories, with no duplicate check, and the field is cleared. |
| SettingsPage.RemoveCategoryFilters | app/dashboard/settings/page.tsx:230-241 | Removing saves the shown list without the category, the others in order, and keeps the other settings. |
| SettingsPage.MountedPageShowsStored | app/dashboard/settings/page.tsx:74-79 | Once the effect has run on the mounted page, the page's settings are the hook's, whatever the page's defaults were. |
| SettingsPage.AddCategoryAfterSync | app/dashboard/settings/page.tsx:74-79 | After the effect, adding a name saves the hook's categories with the trimmed name appended, and the page shows them. A blank name changes nothing. |
| SettingsPage.RemoveCategoryAfterSync | app/dashboard/settings/page.tsx:74-79 | After the effect, removing a category saves exactly the hook's other categories, in order. |
| SettingsPage.WorkTypeAfterSync | app/dashboard/settings/page.tsx:74-79 | After the effect, a work-type change sends the hook's settings with only the work type replaced. |
| MainCalendar.InitialEvents | components/main/edit-calendar.tsx:83-132 | Six events, each ending after it starts and styled as its kind's entry of the style table. |
| MainCalendar.Ids | components/main/edit-calendar.tsx:141-154 | The ids of the events, in order. |
| MainCalendar.ChangedEvents | components/main/edit-calendar.tsx:141-154 | Only the events with the reported id change: title from the report, start and end from it unless null. Every other field stays. |
| MainCalendar.Retitled | components/main/edit-calendar.tsx:208-213 | Only the events with that id take the new title; the length is kept. |
| MainCalendar.Calendar.constructor | components/main/edit-calendar.tsx:82-139 | The initial events, a closed dialog in create mode, and an empty title. |
| MainCalendar.Calendar.HandleEventChange | components/main/edit-calendar.tsx:141-156 | The state and toast are those of the event-change step. |
| MainCalendar.Calendar.HandleEventClick | components/main/edit-calendar.tsx:158-176 | The state is that of the click step. |
| MainCalendar.Calendar.HandleDateSelect | components/main/edit-calendar.tsx:178-188 | The state and the forwarded selection are those of the select step. |
| MainCalendar.Calendar.HandleSaveEvent | components/main/edit-calendar.tsx:190-219 | The state and toast are those of the save step. |
| MainCalendar.Calendar.HandleOpenChange | components/main/edit-calendar.tsx:322-327 | The state is that of the open-change step. |
| MainCalendar.Calendar.HandleTitleInput | components/main/edit-calendar.tsx:341 | The title becomes the typed text. |
| MainCalendar.EventChangeKeepsIds | components/main/edit-calendar.tsx:141-154 | A move keeps the list of ids, and reporting the same change twice is reporting it once. |
| MainCalendar.SaveRefusesBlankTitle | components/main/edit-calendar.tsx:191-194 | A whitespace-only title is refused with a message, and nothing changes. |
| MainCalendar.SaveCreates | components/main/edit-calendar.tsx:196-207 | Create mode with a range appends one event and resets the dialog. |
| MainCalendar.SaveRetitles | components/main/edit-calendar.tsx:208-214 | Edit mode retitles the events with that id and resets the dialog. |
| MainCalendar.SaveOtherwiseResets | components/main/edit-calendar.tsx:217-218 | In any other mode a save only resets the dialog, with no toast. |
| MainCalendar.SelectTypeSaveAppends | components/main/edit-calendar.tsx:196-206 | Select, type, save appends exactly one event with the range, its all-day flag and the standup style; earlier events stay. |
| MainCalendar.ClickTypeSaveRetitles | components/main/edit-calendar.tsx:158-214 | Click, type, save retitles the events with that id and nothing else. |
| MainCalendar.HandlersOpenDialog | components/main/edit-calendar.tsx:158-188 | A range opens create mode with an empty title; an event opens edit mode with its title. |
| DashboardCalendar.InitialEvents | components/dashboard/edit-calendar.tsx:75-112 | Four events, each ending after it starts and carrying colours and class names. |
| DashboardCalendar.Ids | components/dashboard/edit-calendar.tsx:121-134 | The ids of the events, in order. |
| DashboardCalendar.ChangedEvents | components/dashboard/edit-calendar.tsx:121-134 | The events with the reported id take its title, start and end with no null fallback, and keep their colours; the others stay. |
| DashboardCalendar.Retitled | components/dashboard/edit-calendar.tsx:174-179 | Only the events with that id take the new title; the length is kept. |
| DashboardCalendar.Calendar.constructor | components/dashboard/edit-calendar.tsx:74-119 | The initial events, a closed dialog, and an empty title. |
| DashboardCalendar.Calendar.HandleEventChange | components/dashboard/edit-calendar.tsx:121-136 | The state and toast are those of the event-change step. |
| DashboardCalendar.Calendar.HandleEventClick | components/dashboard/edit-calendar.tsx:138-145 | The state is that of the click step. |
| DashboardCalendar.Calendar.HandleDateSelect | components/dashboard/edit-calendar.tsx:147-154 | The state is that of the select step. |
| DashboardCalendar.Calendar.HandleSaveEvent | components/dashboard/edit-calendar.tsx:156-185 | The state and toast are those of the save step. |
| DashboardCalendar.Calendar.HandleOpenChange | components/dashboard/edit-calendar.tsx:199-204 | The state is that of the open-change step. |
| DashboardCalendar.Calendar.HandleTitleInput | components/dashboard/edit-calendar.tsx:220 | The title becomes the typed text. |
| DashboardCalendar.EventChangeKeepsIds | components/dashboard/edit-calendar.tsx:121-134 | A move keeps the list of ids and is idempotent. |
| DashboardCalendar.SaveRefusesBlankTitle | components/dashboard/edit-calendar.tsx:157-160 | A whitespace-only title is refused with a message, and nothing changes. |
| DashboardCalendar.SaveCreates | components/dashboard/edit-calendar.tsx:162-173 | Create mode with a range appends one event and resets the dialog. |
| DashboardCalendar.SaveRetitles | components/dashboard/edit-calendar.tsx:174-181 | Edit mode retitles the events with that id and resets the dialog. |
| DashboardCalendar.SaveOtherwiseResets | components/dashboard/edit-calendar.tsx:183-184 | In any other mode a save only resets the dialog, with no toast. |
| DashboardCalendar.SelectTypeSaveAppends | components/dashboard/edit-calendar.tsx:162-173 | Select, type, save appends exactly one event over the range in the meeting colours; earlier events stay. |
| DashboardCalendar.ClickTypeSaveRetitles | components/dashboard/edit-calendar.tsx:138-181 | Click, type, save retitles the events with that id and nothing else. |
| DashboardCalendar.CloseResets | components/dashboard/edit-calendar.tsx:199-204 | Closing the dialog by any route resets it and keeps the events. |
| TaskSidebar.InitialForm | components/main/task-input-sidebar.tsx:37-45 | Empty title, description, priority and category, the given start, no end, not all-day. |
| TaskSidebar.WithInitialStart | components/main/task-input-sidebar.tsx:47-58 | A given start is set with an end one hour later; the other fields stay. |
| TaskSidebar.Sidebar.constructor | components/main/task-input-sidebar.tsx:37-45 | The form is the initial form. |
| TaskSidebar.Sidebar.InitialStartDateChanged | components/main/task-input-sidebar.tsx:47-59 | The form is that of the initial-start effect. |
| TaskSidebar.Sidebar.Edit | components/main/task-input-sidebar.tsx:110-174 | The form is the edited form. |
| TaskSidebar.Sidebar.HandleSubmit | components/main/task-input-sidebar.tsx:61-80 | The submit creates exactly when a callback is given and nothing is missing, and passes the form unchanged. It refuses exactly when a field is missing, naming the first one. |
| TaskSidebar.SubmitChecksInOrder | components/main/task-input-sidebar.tsx:62-79 | Title, then start, then end are checked, stopping at the first missing. The callback gets the form unchanged only when all three are set. |
| TaskSidebar.BlankTitleAccepted | components/main/task-input-sidebar.tsx:62 | A title of spaces passes the check. |
| TaskSidebar.StartDateFillsDates | components/main/task-input-sidebar.tsx:47-79 | Opened on a start date, a form with a title submits that start and the hour after it. |
| TaskSidebar.EditTouchesOneField | components/main/task-input-sidebar.tsx:110-174 | Every edit changes its own field and no other. |

## Left out

- Signature checking is not modelled. The svix and Stripe verifiers are given verdicts. The svix 5-minute timestamp tolerance is not part of the repository's own code.
- Telemetry is not modelled. This covers the Axiom logger, `timeOperation` and `lib/logger.ts`. They are best-effort I/O with no effect on any response.
- The module-load environment checks that throw at import time are not modelled. They are configuration, not request behaviour. `ClerkWebhook.InitSupabaseClient` and `SupabaseContext.ServerClient` do model the per-call checks.
- The Upstash sliding-window rate limiter is a given function from limit key to verdict.
- The realtime subscriptions are modelled only as their callbacks (`Changed`); subscribing and unsubscribing are left out.
- The hooks' 2-second sleep before the settings re-read is not modelled: it is timing only, and the re-read's reply is a parameter.
- `Date`, `Intl` and local-time arithmetic are not modelled. This includes `getDayName` and the daylight-saving effects of `setHours`. Times are milliseconds, or hours and minutes.
- Duplicate and concurrent webhook deliveries are not modelled. They depend on database constraints outside the repository. Requests run one at a time.
- The key order of `Object.keys` is not modelled. The updated-fields lists of audit entries are modelled as sets.
- Common.NumberValue: only the integer forms of `Number(string)` are modelled. Fractions, exponents, hex literals and Infinity give NaN in the model.
- Pagination.ParsePage: `page` and `pageSize` are integers in the model. The schema is `z.number()` without `.int()`, so the source also accepts fractions such as 1.5 and passes them to the range arithmetic. Fractional pages are not modelled.
- SettingsPage.Page.HandleWorkTypeChange: the source does not await the settings write before sending the reset list. The model runs the two writes in that order, one after the other.
- `getFullProfile`, `updateProfile`, the work-schedule CRUD procedures, `getNotificationPreferences` and `getSubscription` of `lib/trpc/routers/user.ts` are not modelled. They forward to the database with no logic of their own. The work-schedule time grammar is modelled by `ProfileValidation.ScheduleTimeGrammar`.
- `parseTime` on the settings page is not modelled. Nothing on the page calls it.
- The Stripe catalogue and subscription actions are foreign. The model records which action is called and whether it threw.
- `lib/trpc/context.ts` is modelled only by the fact that it never sets `isAdmin`.

- SettingsPage.Page.HandleWorkingDayUpdate, SettingsPage.Page.HandleSettingsUpdate, SettingsPage.Page.SendDays, SettingsPage.Page.HandleWorkTypeChange, SettingsPage.Page.HandleAddCategory, SettingsPage.Page.HandleRemoveCategory and SettingsPage.WorkTypeChangeShowsStored run the corrected page, which reverts when a hook did not save. The as-written page, which never reverts, is modelled by `DayUpdateAsWritten` and `SettingsUpdateAsWritten`; see Findings.
- PreferencesRoute.Patch and PreferencesRoute.PatchPreferencesOutcomes use the corrected upsert row, owned by the session user. The as-written row, which a body `user_id` retargets, is `UpsertRowAsWritten`; see Findings.
- SettingsPage.Page.SyncSettings: the effect is a separate method. Running it after each change of the hook's settings is left to the caller, as React schedules it.
- Supabase.ILikeMatch: case folding covers the ASCII letters only; PostgreSQL also folds other letters by the database locale. A pattern ending in a lone backslash matches nothing here, where PostgreSQL raises an error.
- TrpcUser.AdminDeleteUser: the model states the request sent. The cascade to the user's other tables is a database constraint; it is modelled on the webhook's store by `ClerkWebhook.WithoutUser`.

- ApiRoute.JsonError: the 400 answers of the profile and preferences routes carry `{ error }` only. The zod `details` those answers also send is not modelled. The same holds for the `details` of the 500 answer to a failed Clerk deletion.
- Supabase.Holds: `.gte` and `.lte` on `created_at` compare the bounds as strings. The database compares them as timestamps, so one instant written as "…Z" and as "…+00:00" can compare differently in the model. Bounds written in one ISO-8601 format compare as the database does.
- SettingsHook.Settings: a stored settings value is always a complete record. A stored row missing one of its keys is not represented, so the `??` fallbacks of `displaySettings` are reached only through `SettingsPage.DisplaySettings` on partial patches.

## Findings

| source | as written | input that shows it | evidently intended | confidence | as-written member | corrected member |
|---|---|---|---|---|---|---|
| app/dashboard/settings/page.tsx:112-117 | The page reverts its optimistic working days only when `updateWorkingDays` throws. The hook catches every error itself, so the revert never runs for a failed write; it runs only for the page's own hour check. | The default week, with Monday switched off, and a write that fails. The hook keeps the default week. The page shows Monday off, with no error. | A failed save reverts the page to the stored list. | not executed | SettingsPage.FailedDayWriteStaysDisplayed | SettingsPage.DayUpdateShowsStoredDays |
| app/dashboard/settings/page.tsx:133-136 | The page reverts its optimistic settings only when `updateSettings` throws. The hook catches every error itself, so the revert and the error message never happen. | The default settings, with the 24-hour clock switched on, and a write that fails. The hook keeps the defaults. The page shows the 24-hour clock, with no error. | A failed save reverts the settings and shows the error. | not executed | SettingsPage.FailedSettingsWriteStaysDisplayed | SettingsPage.SettingsUpdateShowsStored |
| app/api/user/preferences/route.ts:165-169 | The row is `{ user_id, ...body, updated_at }`, so a `user_id` in the body overrides the session user. | A valid body `{"user_id": "other"}` from a signed-in user "me". The upsert targets the preferences row of "other". | The row always belongs to the session user, as the profile PUT enforces by writing `user_id` after the body. | not executed | PreferencesRoute.BodyRetargetsUpsert | PreferencesRoute.UpsertRow |
