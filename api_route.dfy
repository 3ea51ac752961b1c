/**
 * What the REST routes under app/api/user share: JSON responses, the
 * session check and rate limit that open every handler, and the request
 * metadata attached to audit entries.
 *
 * The session (Clerk's `auth()`) is a given optional user id. The rate
 * limiter (Upstash's sliding window) is a given function from the limit key
 * to its verdict.
 */
module ApiRoute {
  import opened Common
  import opened Supabase
  import opened AuditLog

  /** `NextResponse.json(body, { status, headers })`. */
  datatype Response = Response(status: int, body: Json, headers: map<string, string>)

  /** `NextResponse.json({ error: message }, { status })`. */
  function JsonError(status: int, message: string): Response
  {
    Response(status, JObj(map["error" := JStr(message)]), map[])
  }

  /** `NextResponse.json(data)`: status 200. */
  function JsonOk(data: Json): Response
  {
    Response(200, data, map[])
  }

  const UNAUTHORIZED_RESPONSE := JsonError(401, "Unauthorized")
  const INTERNAL_ERROR := JsonError(500, "Internal server error")

  /** What `strictRateLimiter.limit(key)` resolves to, or that it threw. */
  datatype LimitReply = LimitReply(success: bool, limit: int, remaining: int, reset: int) | LimiterThrew

  /** The 429 answer: the reset time in the body and the three
    * X-RateLimit headers. */
  function TooManyRequests(limit: int, remaining: int, reset: int): (r: Response)
    ensures r.status == 429
    ensures r.headers.Keys == {"X-RateLimit-Limit", "X-RateLimit-Remaining", "X-RateLimit-Reset"}
    ensures r.headers["X-RateLimit-Limit"] == IntToString(limit)
    ensures r.headers["X-RateLimit-Remaining"] == IntToString(remaining)
    ensures r.headers["X-RateLimit-Reset"] == IntToString(reset)
  {
    Response(429,
             JObj(map["error" := JStr("Too many requests"), "reset" := JNum(reset as real)]),
             map["X-RateLimit-Limit" := IntToString(limit),
                 "X-RateLimit-Remaining" := IntToString(remaining),
                 "X-RateLimit-Reset" := IntToString(reset)])
  }

  /** The opening of every handler: 401 without a session user, then the
    * rate limit under `prefix + userId`; a limiter that throws lands in the
    * handler's catch-all. None means the handler goes on. */
  function Gate(session: Option<string>, limiter: string -> LimitReply, prefix: string): (r: Option<Response>)
    ensures !SignedIn(session) ==> r == Some(UNAUTHORIZED_RESPONSE)
    ensures r.None? <==> SignedIn(session) && limiter(prefix + session.value).LimitReply? && limiter(prefix + session.value).success
    ensures SignedIn(session) && limiter(prefix + session.value).LimitReply? && !limiter(prefix + session.value).success
            ==> (var v := limiter(prefix + session.value); r == Some(TooManyRequests(v.limit, v.remaining, v.reset)))
    ensures SignedIn(session) && limiter(prefix + session.value).LimiterThrew? ==> r == Some(INTERNAL_ERROR)
  {
    if !SignedIn(session) then Some(UNAUTHORIZED_RESPONSE)
    else
      var v := limiter(prefix + session.value);
      if v.LimiterThrew? then Some(INTERNAL_ERROR)
      else if !v.success then Some(TooManyRequests(v.limit, v.remaining, v.reset))
      else None
  }

  /** The `x-forwarded-for` and `user-agent` headers, `|| 'unknown'`. */
  datatype Metadata = Metadata(ipAddress: string, userAgent: string)

  function OrUnknown(h: Option<string>): (r: string)
    ensures r != ""
    ensures h.Some? && h.value != "" ==> r == h.value
  {
    if h.Some? && h.value != "" then h.value else "unknown"
  }

  function RequestMetadata(forwardedFor: Option<string>, userAgent: Option<string>): Metadata
  {
    Metadata(OrUnknown(forwardedFor), OrUnknown(userAgent))
  }

  /** A handler's response, the requests it sent and the audit entry it
    * passed to createAuditLog, if any. */
  datatype Handled = Handled(response: Response, requests: seq<Request>, audit: Option<AuditEntry>)

  /** The audit rows a handled request adds, given how the audit insert went. */
  function AuditRows(h: Handled, auditNow: string, outcome: InsertOutcome): seq<AuditEntry>
  {
    if h.audit.Some? then Logged(h.audit.value, auditNow, outcome) else []
  }
}
