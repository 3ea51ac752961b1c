/**
 * The Supabase client of the browser and the server (utils/supabase/context.tsx).
 *
 * The browser keeps one cached client and the token it was built for, both
 * module-level variables. A client is rebuilt only when the token differs
 * from the cached one. Before the first rebuild the cache is empty, and every
 * call builds a plain client that is not cached. `createClient` is foreign:
 * a client is modelled by the options it is built with and a serial number
 * that stands for its object identity.
 */
module SupabaseContext {
  import opened Common

  /** The environment variables the clients are built from. */
  datatype Env = Env(url: Option<string>, anonKey: Option<string>, serviceRoleKey: Option<string>)

  /** The options passed to `createClient`. */
  datatype ClientConfig = ClientConfig(url: string, key: string, headers: map<string, string>,
                                       autoRefreshToken: bool, persistSession: bool)

  /** A client object: its options and the serial number of its creation. */
  datatype Client = Client(serial: nat, config: ClientConfig)

  /** `process.env.X!`: the non-null assertion checks nothing, and an unset
    * variable reaches `createClient` as `undefined`, written as "". */
  function Asserted(v: Option<string>): string
  {
    if v.Some? then v.value else ""
  }

  /** `x ? ... : ...` on `string | null`: null and "" are falsy. */
  predicate TruthyText(v: Option<string>)
  {
    v.Some? && v.value != ""
  }

  /** The headers of the cached client (32-35): a bearer token and JSON for
    * a truthy token, none otherwise. */
  function TokenHeaders(token: Option<string>): (h: map<string, string>)
    ensures "Authorization" in h <==> TruthyText(token)
    ensures TruthyText(token) ==> h == map["Authorization" := "Bearer " + token.value, "Accept" := "application/json"]
    ensures !TruthyText(token) ==> h == map[]
  {
    if TruthyText(token) then map["Authorization" := "Bearer " + token.value, "Accept" := "application/json"] else map[]
  }

  /** The browser client's options with the given headers (22-38, 41-54). */
  function BrowserConfig(env: Env, headers: map<string, string>): ClientConfig
  {
    ClientConfig(Asserted(env.url), Asserted(env.anonKey), headers, false, false)
  }

  // ---------------------------------------------------------------------
  // getSupabaseClient (15-55)
  // ---------------------------------------------------------------------

  /** The module-level cache and the number of clients built so far. */
  datatype CacheState = CacheState(instance: Option<Client>, currentToken: Option<string>, built: nat)

  const INITIAL_CACHE := CacheState(None, None, 0)

  datatype ClientStep = ClientStep(state: CacheState, client: Client)

  /** getSupabaseClient: a client for a new token replaces the cache; the
    * same token returns the cached client, or a fresh uncached one while
    * nothing is cached. */
  function GetClient(s: CacheState, token: Option<string>, env: Env): ClientStep
  {
    if token != s.currentToken then
      var c := Client(s.built, BrowserConfig(env, TokenHeaders(token)));
      ClientStep(CacheState(Some(c), token, s.built + 1), c)
    else if s.instance.Some? then ClientStep(s, s.instance.value)
    else ClientStep(s.(built := s.built + 1), Client(s.built, BrowserConfig(env, map[])))
  }

  /** The cache holds a client built for the current token, of a serial
    * already used; an empty cache has the initial null token. */
  predicate CacheValid(s: CacheState)
  {
    && (s.instance.None? ==> s.currentToken.None?)
    && (s.instance.Some? ==> s.instance.value.serial < s.built && s.instance.value.config.headers == TokenHeaders(s.currentToken))
  }

  class ClientCache {
    var supabaseInstance: Option<Client>
    var currentToken: Option<string>
    var built: nat

    constructor ()
      ensures Snapshot() == INITIAL_CACHE
    {
      supabaseInstance := None;
      currentToken := None;
      built := 0;
    }

    function Snapshot(): CacheState
      reads this
    {
      CacheState(supabaseInstance, currentToken, built)
    }

    method GetSupabaseClient(token: Option<string>, env: Env) returns (client: Client)
      modifies this
      ensures var r := GetClient(old(Snapshot()), token, env); Snapshot() == r.state && client == r.client
    {
      if token != currentToken {
        currentToken := token;
        supabaseInstance := Some(Client(built, BrowserConfig(env, TokenHeaders(token))));
        built := built + 1;
      }
      if supabaseInstance.Some? {
        client := supabaseInstance.value;
      } else {
        client := Client(built, BrowserConfig(env, map[]));
        built := built + 1;
      }
    }
  }

  /** The cache starts valid and every call keeps it valid. */
  lemma CacheStaysValid(s: CacheState, token: Option<string>, env: Env)
    requires CacheValid(s)
    ensures CacheValid(INITIAL_CACHE)
    ensures CacheValid(GetClient(s, token, env).state)
  {
  }

  /** A new client is built exactly when the token changed or nothing is
    * cached; afterwards the current token is the one asked for, and the
    * cache changes only on a new token. */
  lemma NewClientOnlyOnChange(s: CacheState, token: Option<string>, env: Env)
    requires CacheValid(s)
    ensures var r := GetClient(s, token, env);
            && (r.client.serial == s.built <==> token != s.currentToken || s.instance.None?)
            && r.state.currentToken == token
            && (token == s.currentToken ==> r.state.instance == s.instance)
            && (token != s.currentToken ==> r.state.instance == Some(r.client))
  {
  }

  /** Once a client is cached, asking again with the same token gives that
    * same client and changes nothing. */
  lemma SameTokenSameClient(s: CacheState, token: Option<string>, env: Env, env2: Env)
    requires CacheValid(s)
    ensures var r1 := GetClient(s, token, env);
            r1.state.instance.Some? ==> GetClient(r1.state, token, env2) == ClientStep(r1.state, r1.client)
  {
  }

  /** From the initial state, a null token yields a new plain client on every
    * call and never fills the cache. */
  lemma NullTokenNeverCached(s: CacheState, env: Env)
    requires s.instance.None? && s.currentToken.None?
    ensures var r := GetClient(s, None, env);
            && r.state == s.(built := s.built + 1)
            && r.client == Client(s.built, BrowserConfig(env, map[]))
            && "Authorization" !in r.client.config.headers
  {
  }

  /** The client returned carries a bearer header exactly when the token is
    * truthy, and then for that token. */
  lemma AuthorizationIffToken(s: CacheState, token: Option<string>, env: Env)
    requires CacheValid(s)
    ensures var c := GetClient(s, token, env).client;
            && ("Authorization" in c.config.headers <==> TruthyText(token))
            && (TruthyText(token) ==> c.config.headers["Authorization"] == "Bearer " + token.value)
  {
  }

  /** The state after a run of calls, and the clients the calls returned. */
  datatype Run = Run(state: CacheState, clients: seq<Client>)

  function Calls(s: CacheState, tokens: seq<Option<string>>, env: Env): Run
  {
    if |tokens| == 0 then Run(s, [])
    else
      var r := Calls(s, tokens[..|tokens| - 1], env);
      var step := GetClient(r.state, tokens[|tokens| - 1], env);
      Run(step.state, r.clients + [step.client])
  }

  /** Over any run of calls from a valid cache the cache stays valid, one
    * serial is used per call at most, and every client handed out has a
    * serial from this run: a call never returns a client of an earlier
    * run. */
  lemma {:induction false} RunKeepsCache(s: CacheState, tokens: seq<Option<string>>, env: Env)
    requires CacheValid(s)
    ensures var r := Calls(s, tokens, env);
            && CacheValid(r.state)
            && |r.clients| == |tokens|
            && s.built <= r.state.built <= s.built + |tokens|
            && (forall i :: 0 <= i < |tokens| ==> r.clients[i].serial < r.state.built)
            && (r.state.instance.Some? && s.instance.Some? && r.state.instance != s.instance ==> s.built <= r.state.instance.value.serial)
    decreases |tokens|
  {
    if |tokens| > 0 {
      var r := Calls(s, tokens[..|tokens| - 1], env);
      RunKeepsCache(s, tokens[..|tokens| - 1], env);
      CacheStaysValid(r.state, tokens[|tokens| - 1], env);
      NewClientOnlyOnChange(r.state, tokens[|tokens| - 1], env);
    }
  }

  // ---------------------------------------------------------------------
  // SupabaseProvider (57-87) and useSupabase (89-95)
  // ---------------------------------------------------------------------

  /** The token the provider holds: null when signed out or when Clerk's
    * `getToken` throws, and otherwise what it returned. */
  function ProviderToken(userId: Option<string>, fetched: Result<Option<string>>): (t: Option<string>)
    ensures !SignedIn(userId) ==> t.None?
    ensures fetched.Err? ==> t.None?
    ensures SignedIn(userId) && fetched.Ok? ==> t == fetched.value
  {
    if !SignedIn(userId) then None
    else if fetched.Err? then None
    else fetched.value
  }

  const OUTSIDE_PROVIDER := "useSupabase must be used within a SupabaseProvider"

  /** useSupabase: the provider's client, or an error outside a provider. */
  function UseSupabase(context: Option<Client>): (r: Result<Client>)
    ensures r.Ok? <==> context.Some?
    ensures r.Ok? ==> r.value == context.value
    ensures r.Err? ==> r.error == OUTSIDE_PROVIDER
  {
    if context.None? then Err(OUTSIDE_PROVIDER) else Ok(context.value)
  }

  // ---------------------------------------------------------------------
  // Clients built without the cache (97-173)
  // ---------------------------------------------------------------------

  const SERVER_ENV_MISSING := "Missing required Supabase environment variables for server client"

  /** createServerSupabaseClient: the service role key both as key and as
    * bearer token; an unset or empty URL or key is refused. */
  function ServerClient(env: Env): (r: Result<ClientConfig>)
    ensures r.Ok? <==> TruthyText(env.url) && TruthyText(env.serviceRoleKey)
    ensures r.Err? ==> r.error == SERVER_ENV_MISSING
    ensures r.Ok? ==> && r.value.url == env.url.value && r.value.key == env.serviceRoleKey.value
                      && r.value.headers == map["Authorization" := "Bearer " + env.serviceRoleKey.value]
                      && !r.value.persistSession
  {
    if !TruthyText(env.url) || !TruthyText(env.serviceRoleKey) then Err(SERVER_ENV_MISSING)
    else Ok(ClientConfig(env.url.value, env.serviceRoleKey.value,
                         map["Authorization" := "Bearer " + env.serviceRoleKey.value], false, false))
  }

  /** The headers every client below sends. */
  const MINIMAL_HEADERS: map<string, string> := map["Accept" := "application/json", "Prefer" := "return=minimal"]

  /** createBrowserSupabaseClient: the anonymous key, no bearer token. */
  function BrowserClient(env: Env): (c: ClientConfig)
    ensures c.key == Asserted(env.anonKey) && c.headers == MINIMAL_HEADERS && "Authorization" !in c.headers
  {
    ClientConfig(Asserted(env.url), Asserted(env.anonKey), MINIMAL_HEADERS, false, false)
  }

  const SSR_ENV_MISSING := "Missing Supabase environment variables"

  /** createClerkSupabaseClientSsr: the token is fetched first, and an error
    * while fetching is passed on as it is; then an unset URL or anonymous
    * key is refused; a truthy token is sent as a bearer token. */
  function ClerkSsrClient(env: Env, fetched: Result<Option<string>>): (r: Result<ClientConfig>)
    ensures fetched.Err? ==> r == Err(fetched.error)
    ensures fetched.Ok? ==> (r.Ok? <==> TruthyText(env.url) && TruthyText(env.anonKey))
    ensures fetched.Ok? && r.Err? ==> r.error == SSR_ENV_MISSING
    ensures r.Ok? ==> && MINIMAL_HEADERS.Keys <= r.value.headers.Keys
                      && ("Authorization" in r.value.headers <==> TruthyText(fetched.value))
  {
    if fetched.Err? then Err(fetched.error)
    else if !TruthyText(env.url) || !TruthyText(env.anonKey) then Err(SSR_ENV_MISSING)
    else
      var token := fetched.value;
      var headers := if TruthyText(token) then MINIMAL_HEADERS["Authorization" := "Bearer " + token.value] else MINIMAL_HEADERS;
      Ok(ClientConfig(env.url.value, env.anonKey.value, headers, false, false))
  }
}
