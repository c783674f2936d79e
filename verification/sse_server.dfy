/** The session and authentication bookkeeping of the HTTP server that offers
    both the Streamable HTTP endpoints (`/http`, `/mcp`) and the older
    HTTP+SSE pair (`/sse`, `/messages`). Time, the decoded credential text and
    fresh session ids are parameters; transports themselves are opaque. */
module SseServer {
  import opened Wrappers
  import opened Strings

  /** Sessions idle for longer than this many milliseconds are removed. */
  const ConnectionTimeout := 30000

  /** The name given to requests admitted while authentication is disabled. */
  const AnonymousUser := "anonymous_fallback_auth_disabled"

  /** JSON-RPC error codes the server answers with. */
  const MissingCredentialsCode := -32001
  const BadRequestCode := -32000

  /** `process.env.DATAFORSEO_USERNAME` and `..._PASSWORD`, read once. */
  datatype Env = Env(username: Option<string>, password: Option<string>)

  datatype Kind = Sse | Streamable

  /** A stored transport, the time it was last used, and the credentials of
      the `GET /sse` request whose MCP server the transport is connected to. */
  datatype Session = Session(kind: Kind, lastActivity: int, username: Option<string>, password: Option<string>)

  /** `transports` (every stored session) and the keys of `sseTransports`. */
  datatype State = State(transports: map<string, Session>, sseTransports: set<string>)

  const Initial := State(map[], {})

  /** What a request ends in. */
  datatype Reply =
    | Challenge
      /* 401, `WWW-Authenticate: Basic realm="Restricted Area"`, "Authentication required." */
    | RpcError(status: int, code: int, message: string)
      /* a JSON-RPC error body `{jsonrpc: "2.0", error: {code, message}, id: null}` */
    | PlainError(status: int, text: string)
    | Forward(username: Option<string>, password: Option<string>)
      /* handed to an MCP transport whose server acts with these credentials */
    | Stream(sessionId: string)
      /* an SSE stream whose first event names `/messages?sessionId=<id>` */
    | NotFound
    | BodyRejected(status: int)
      /* `express.json()`'s error: 400 for a malformed body, 413 for one over its 100 kB limit */
    | Allowed(methods: set<Method>)
      /* Express's automatic OPTIONS answer: 200 with an `Allow` header naming these verbs */

  /** What `basicAuth` decides: pass the request on with these request
      credentials, or challenge it. */
  datatype AuthOutcome = Admitted(username: Option<string>, password: Option<string>) | Challenged

  /** The value JavaScript destructuring takes from position `i` of a split. */
  function Piece(parts: seq<string>, i: nat): Option<string>
  {
    if i < |parts| then Some(parts[i]) else None
  }

  /** The credentials a header carries, when it has the form
      `Basic <non-empty token>`: the text before the first ':' of the
      decoded token and the text between the first and second ':'. */
  function Presented(header: Option<string>, decode: string -> string): Option<(string, Option<string>)>
  {
    if !TruthyString(header) then None
    else
      var words := Split(header.value, ' ');
      var token := Piece(words, 1);
      if words[0] != "Basic" || !TruthyString(token) then None
      else
        var parts := Split(decode(token.value), ':');
        Some((parts[0], Piece(parts, 1)))
  }

  /** The presented credentials are exactly the configured ones, an unset
      password matching a missing one. */
  predicate Matches(header: Option<string>, decode: string -> string, env: Env)
  {
    var c := Presented(header, decode);
    c.Some? && Some(c.value.0) == env.username && c.value.1 == env.password
  }

  /** `basicAuth` (the decode step cannot throw here). */
  function BasicAuth(header: Option<string>, decode: string -> string, env: Env): (r: AuthOutcome)
    ensures Matches(header, decode, env) ==>
      r == Admitted(Some(Presented(header, decode).value.0), Presented(header, decode).value.1)
    ensures !Matches(header, decode, env) ==>
      r == if TruthyString(env.username) then Challenged else Admitted(Some(AnonymousUser), None)
  {
    var c := Presented(header, decode);
    if c.Some? && Some(c.value.0) == env.username && c.value.1 == env.password then
      Admitted(Some(c.value.0), c.value.1)
    else if TruthyString(env.username) then Challenged
    else Admitted(Some(AnonymousUser), None)
  }

  /** With a username configured, only the configured username and password
      get through, and they are what the request then carries. */
  lemma OnlyConfiguredUserAdmitted(header: Option<string>, decode: string -> string, env: Env)
    requires TruthyString(env.username)
    ensures BasicAuth(header, decode, env).Admitted? ==>
      BasicAuth(header, decode, env) == Admitted(env.username, env.password)
  {
  }

  /** A header that spells out the configured credentials is admitted. */
  lemma ConfiguredCredentialsAdmitted(user: string, pass: string, token: string, decode: string -> string)
    requires ':' !in user && ':' !in pass && ' ' !in token && token != ""
    requires decode(token) == user + ":" + pass
    ensures BasicAuth(Some("Basic " + token), decode, Env(Some(user), Some(pass)))
         == Admitted(Some(user), Some(pass))
  {
    var header := "Basic " + token;
    assert header == "Basic" + [' '] + token;
    SplitCons("Basic", token, ' ');
    SplitFree(token, ' ');
    assert user + ":" + pass == user + [':'] + pass;
    SplitCons(user, pass, ':');
    SplitFree(pass, ':');
  }

  /** With the password unset, a decoded token without any ':' that equals
      the username is admitted: the missing second piece equals the missing
      password. */
  lemma UnsetPasswordMatchesMissingPiece(user: string, token: string, decode: string -> string)
    requires ':' !in user && ' ' !in token && token != "" && user != ""
    requires decode(token) == user
    ensures BasicAuth(Some("Basic " + token), decode, Env(Some(user), None)) == Admitted(Some(user), None)
  {
    var header := "Basic " + token;
    assert header == "Basic" + [' '] + token;
    SplitCons("Basic", token, ' ');
    SplitFree(token, ' ');
    SplitFree(user, ':');
  }

  /** `d` is the decoded token of a request carrying `user` and `pass`:
      `user`, then `:pass` exactly when a password is set, then nothing or
      further `:`-separated text. */
  predicate SpellsCredentials(d: string, user: string, pass: Option<string>)
  {
    && ':' !in user
    && match pass
       case None => d == user
       case Some(p) =>
         var n := |user| + 1 + |p|;
         && ':' !in p && |d| >= n && d[..n] == user + ":" + p
         && (|d| == n || d[n] == ':')
  }

  /** The token of a `Basic ` header: the text after "Basic " up to the next
      space. */
  function BasicToken(h: string): string
    requires |h| >= 6
  {
    var rest := h[6..];
    rest[..FirstIndex(rest, ' ')]
  }

  /** `FirstIndex` is the position `k` when `c` does not occur before `k`
      and `k` is the end or holds `c`. */
  lemma FirstIndexIs(s: string, c: char, k: nat)
    requires k <= |s| && c !in s[..k] && (k == |s| || s[k] == c)
    ensures FirstIndex(s, c) == k
  {
    var i := FirstIndex(s, c);
    assert i <= k by {
      if k < |s| { assert s[..k + 1][k] == c; }
    }
    assert s[..i] == s[..k][..i];
  }

  /** A header starting "Basic " splits on spaces into "Basic" and its token. */
  lemma BasicWords(h: string)
    requires |h| >= 6 && h[..6] == "Basic "
    ensures |Split(h, ' ')| >= 2 && Split(h, ' ')[0] == "Basic" && Split(h, ' ')[1] == BasicToken(h)
  {
    FirstIndexIs(h, ' ', 5);
    SplitAtFirst(h, ' ');
    assert h[..5] == "Basic";
    SplitAtFirst(h[6..], ' ');
  }

  /** The first two `:`-pieces of `d`, as destructuring reads them, are the
      given credentials exactly when `d` spells them. */
  lemma CredentialPieces(d: string, user: string, pass: Option<string>)
    ensures (Split(d, ':')[0] == user && Piece(Split(d, ':'), 1) == pass) <==> SpellsCredentials(d, user, pass)
  {
    if Split(d, ':')[0] == user && Piece(Split(d, ':'), 1) == pass {
      PiecesSpell(d, user, pass);
    }
    if SpellsCredentials(d, user, pass) {
      SpellingGivesPieces(d, user, pass);
    }
  }

  lemma PiecesSpell(d: string, user: string, pass: Option<string>)
    requires Split(d, ':')[0] == user && Piece(Split(d, ':'), 1) == pass
    ensures SpellsCredentials(d, user, pass)
  {
    SplitAtFirst(d, ':');
    if ':' in d {
      PasswordPieceSpells(d, user, pass);
    } else {
      SplitFree(d, ':');
    }
  }

  /** With a `:` in the decoded text, the second piece is the text between
      the first `:` and the next one. */
  lemma PasswordPieceSpells(d: string, user: string, pass: Option<string>)
    requires ':' in d && Split(d, ':')[0] == user && Piece(Split(d, ':'), 1) == pass
    ensures SpellsCredentials(d, user, pass)
  {
    var j := FirstIndex(d, ':');
    SplitAtFirst(d, ':');
    var e := d[j + 1..];
    assert Split(d, ':')[1] == Split(e, ':')[0];
    var k := FirstIndex(e, ':');
    SplitAtFirst(e, ':');
    assert k < |e| ==> d[j + 1 + k] == e[k];
    SpellsFromParts(d, user, e[..k], j, k);
  }

  lemma SpellsFromParts(d: string, user: string, p: string, j: nat, k: nat)
    requires j < |d| && d[..j] == user && d[j] == ':' && ':' !in user
    requires j + 1 + k <= |d| && d[j + 1..][..k] == p && ':' !in p
    requires j + 1 + k == |d| || d[j + 1 + k] == ':'
    ensures SpellsCredentials(d, user, Some(p))
  {
    assert d[..j + 1 + k] == user + ":" + p;
  }

  lemma SpellingGivesPieces(d: string, user: string, pass: Option<string>)
    requires SpellsCredentials(d, user, pass)
    ensures Split(d, ':')[0] == user && Piece(Split(d, ':'), 1) == pass
  {
    match pass
    case None =>
      SplitFree(d, ':');
    case Some(p) =>
      var n := |user| + 1 + |p|;
      var e := d[|user| + 1..];
      assert d[..n] == user + ":" + p;
      assert d[..|user|] == d[..n][..|user|] == user;
      assert d[|user|] == d[..n][|user|] == ':';
      assert e[..|p|] == d[..n][|user| + 1..] == p;
      assert |e| == |p| || e[|p|] == d[n] == ':';
      SplitAfterUser(d, user, p);
  }

  lemma SplitAfterUser(d: string, user: string, p: string)
    requires ':' !in user && ':' !in p && |d| > |user| && d[..|user|] == user && d[|user|] == ':'
    requires var e := d[|user| + 1..]; |e| >= |p| && e[..|p|] == p && (|e| == |p| || e[|p|] == ':')
    ensures Split(d, ':')[0] == user && Piece(Split(d, ':'), 1) == Some(p)
  {
    var e := d[|user| + 1..];
    assert d == user + [':'] + e;
    SplitCons(user, e, ':');
    SplitPassword(e, p);
  }

  /** The text after the first `:` starts with the password, then ends or
      continues with a `:`. */
  lemma SplitPassword(e: string, p: string)
    requires ':' !in p && |e| >= |p| && e[..|p|] == p && (|e| == |p| || e[|p|] == ':')
    ensures Split(e, ':')[0] == p
  {
    if |e| == |p| {
      assert e == p;
      SplitFree(e, ':');
    } else {
      assert e == p + [':'] + e[|p| + 1..];
      SplitCons(p, e[|p| + 1..], ':');
    }
  }

  /** With a username configured, an admitted request carries a header
      "Basic " + token + (nothing or a space and more), whose token decodes
      to the configured username and password. */
  lemma AdmittedSpellsCredentials(header: Option<string>, decode: string -> string, env: Env)
    requires TruthyString(env.username)
    requires BasicAuth(header, decode, env).Admitted?
    ensures BasicAuth(header, decode, env) == Admitted(env.username, env.password)
    ensures header.Some? && |header.value| > 6 && header.value[..6] == "Basic "
    ensures var t := BasicToken(header.value);
      && t != "" && (|header.value| == 6 + |t| || header.value[6 + |t|] == ' ')
      && SpellsCredentials(decode(t), env.username.value, env.password)
  {
    var h := header.value;
    var words := Split(h, ' ');
    assert Matches(header, decode, env);
    SplitAtFirst(h, ' ');
    var i := FirstIndex(h, ' ');
    assert i == 5 && h[..5] == "Basic";
    assert h[..6] == "Basic ";
    BasicWords(h);
    var t := BasicToken(h);
    var rest := h[6..];
    assert |h| > 6 by { assert rest != []; }
    assert FirstIndex(rest, ' ') == |t|;
    CredentialPieces(decode(t), env.username.value, env.password);
  }

  /** Conversely, a header of that shape is admitted with the configured
      credentials, whatever follows the token or the password. */
  lemma SpelledCredentialsAdmitted(h: string, decode: string -> string, env: Env)
    requires env.username.Some?
    requires |h| > 6 && h[..6] == "Basic "
    requires BasicToken(h) != "" && SpellsCredentials(decode(BasicToken(h)), env.username.value, env.password)
    ensures BasicAuth(Some(h), decode, env) == Admitted(env.username, env.password)
  {
    BasicWords(h);
    CredentialPieces(decode(BasicToken(h)), env.username.value, env.password);
    assert Matches(Some(h), decode, env);
  }

  /** The credentials a handler acts with, or its 401 reply. */
  datatype Credentials = Use(username: Option<string>, password: Option<string>) | Reject(reply: Reply)

  /** The credential step shared by `handleMcpRequest` and `/messages`: a
      request without username and password falls back to the environment,
      and without both environment values it is refused. */
  function ResolveCredentials(username: Option<string>, password: Option<string>, env: Env): (r: Credentials)
    ensures TruthyString(username) || TruthyString(password) ==> r == Use(username, password)
    ensures !TruthyString(username) && !TruthyString(password) && TruthyString(env.username) && TruthyString(env.password) ==> r == Use(env.username, env.password)
    ensures r.Reject? <==> !TruthyString(username) && !TruthyString(password) && !(TruthyString(env.username) && TruthyString(env.password))
    ensures r.Reject? ==> r.reply == RpcError(401, MissingCredentialsCode, "Authentication required. Provide DataForSEO credentials.")
  {
    if !TruthyString(username) && !TruthyString(password) then
      if !TruthyString(env.username) || !TruthyString(env.password) then
        Reject(RpcError(401, MissingCredentialsCode, "Authentication required. Provide DataForSEO credentials."))
      else Use(env.username, env.password)
    else Use(username, password)
  }

  /** Behind `basicAuth`, the fallback never supplies the environment's
      credentials: every admitted request either carries a truthy username
      already or is refused. */
  lemma FallbackNeverSuppliesEnv(header: Option<string>, decode: string -> string, env: Env)
    requires BasicAuth(header, decode, env).Admitted?
    ensures var a := BasicAuth(header, decode, env);
      var c := ResolveCredentials(a.username, a.password, env);
      c == Use(a.username, a.password) || c.Reject?
  {
    var a := BasicAuth(header, decode, env);
    if !TruthyString(a.username) && !TruthyString(a.password) {
      assert Matches(header, decode, env);
      assert !TruthyString(env.username);
    }
  }

  /** `cleanupStaleConnections` at time `now`: every session idle for more
      than the timeout is removed (a throwing `close` does not stop that);
      `sseTransports` is not touched. */
  function Cleanup(s: State, now: int): (r: State)
    ensures r.sseTransports == s.sseTransports
    ensures forall id :: id in r.transports <==>
      id in s.transports && now - s.transports[id].lastActivity <= ConnectionTimeout
    ensures forall id :: id in r.transports ==> r.transports[id] == s.transports[id]
  {
    State(map id | id in s.transports && now - s.transports[id].lastActivity <= ConnectionTimeout :: s.transports[id],
          s.sseTransports)
  }

  /** Cleaning up at a later time subsumes an earlier cleanup. */
  lemma CleanupLater(s: State, t1: int, t2: int)
    requires t1 <= t2
    ensures Cleanup(Cleanup(s, t1), t2) == Cleanup(s, t2)
  {
    assert Cleanup(Cleanup(s, t1), t2).transports == Cleanup(s, t2).transports;
  }

  /** A session used within the timeout survives a cleanup. */
  lemma RecentSessionSurvives(s: State, id: string, now: int)
    requires id in s.transports && now - s.transports[id].lastActivity <= ConnectionTimeout
    ensures Cleanup(s, now).transports[id] == s.transports[id]
  {
  }

  /** `GET /sse` after authentication: a fresh id is stored in both tables,
      its activity time set to now, and its transport connected to a server
      acting with the credentials `basicAuth` admitted (no environment
      fallback here). A message to the new id is then forwarded with exactly
      those credentials. */
  function OpenSse(s: State, id: string, now: int, username: Option<string>, password: Option<string>): (r: State)
    ensures id in r.transports && id in r.sseTransports
    ensures r.transports[id].lastActivity == now
    ensures forall other :: other != id ==>
      (other in r.transports <==> other in s.transports) && (other in s.transports ==> r.transports[other] == s.transports[other])
    ensures AllSse(s) ==> AllSse(r)
    ensures forall q, u, p, env, t :: SessionKey(q) == id && ResolveCredentials(u, p, env).Use? ==>
      PostMessage(r, q, u, p, env, t).0 == Forward(username, password)
  {
    State(s.transports[id := Session(Sse, now, username, password)], s.sseTransports + {id})
  }

  /** The client closing the stream, or the response failing, removes the id
      from `sseTransports` only, so every message is answered as before. */
  function CloseSse(s: State, id: string): (r: State)
    ensures id !in r.sseTransports && r.sseTransports == s.sseTransports - {id}
    ensures AllSse(s) ==> AllSse(r)
    ensures forall q, u, p, env, t :: PostMessage(r, q, u, p, env, t).0 == PostMessage(s, q, u, p, env, t).0
  {
    State(s.transports, s.sseTransports - {id})
  }

  /** The `sessionId` query parameter as a property key: a missing one reads
      the key "undefined". */
  function SessionKey(query: Option<string>): string
  {
    if query.Some? then query.value else "undefined"
  }

  /** The properties every plain object inherits from `Object.prototype`.
      Reading one from the transport table gives a truthy value (a function,
      or the prototype itself for `__proto__`) that is not a transport. */
  const InheritedNames: set<string> := {
    "constructor", "hasOwnProperty", "isPrototypeOf", "propertyIsEnumerable",
    "toLocaleString", "toString", "valueOf", "__proto__",
    "__defineGetter__", "__defineSetter__", "__lookupGetter__", "__lookupSetter__"
  }

  const NoTransport := PlainError(400, "No transport found for sessionId")
  const WrongProtocol := RpcError(400, BadRequestCode, "Bad Request: Session exists but uses a different transport protocol")

  /** `POST /messages` after authentication. The request's credentials only
      decide the 401; the message goes to the stored transport, whose server
      acts with the credentials of the `GET /sse` that opened it. */
  function PostMessage(s: State, query: Option<string>, username: Option<string>, password: Option<string>, env: Env, now: int): (r: (Reply, State))
    ensures r.1.sseTransports == s.sseTransports && r.1.transports.Keys == s.transports.Keys
    ensures ResolveCredentials(username, password, env).Reject? ==> r.0 == ResolveCredentials(username, password, env).reply
    ensures r.0.Forward? <==>
      && ResolveCredentials(username, password, env).Use?
      && SessionKey(query) in s.transports && s.transports[SessionKey(query)].kind == Sse
    ensures r.0.Forward? ==>
      && r.1.transports == s.transports[SessionKey(query) := s.transports[SessionKey(query)].(lastActivity := now)]
      && r.0 == Forward(s.transports[SessionKey(query)].username, s.transports[SessionKey(query)].password)
    ensures !r.0.Forward? ==> r.1 == s
    ensures ResolveCredentials(username, password, env).Use? && SessionKey(query) !in s.transports ==>
      r.0 == if SessionKey(query) in InheritedNames then WrongProtocol else NoTransport
    ensures ResolveCredentials(username, password, env).Use? && SessionKey(query) in s.transports && s.transports[SessionKey(query)].kind != Sse ==>
      r.0 == WrongProtocol
  {
    match ResolveCredentials(username, password, env)
    case Reject(reply) => (reply, s)
    case Use(_, _) =>
      var key := SessionKey(query);
      if key in s.transports then
        var session := s.transports[key];
        if session.kind != Sse then (WrongProtocol, s)
        else (Forward(session.username, session.password), State(s.transports[key := session.(lastActivity := now)], s.sseTransports))
      else if key in InheritedNames then (WrongProtocol, s)
      else (NoTransport, s)
  }

  /** `handleNotAllowed`. */
  const NotAllowed := RpcError(405, BadRequestCode, "Method not allowed.")

  /** `Head` is served by the `app.get` routes, as Express does for a path
      without its own HEAD route; `Options` is answered by Express itself. */
  datatype Method = Get | Head | Post | Delete | Options | OtherMethod

  /** What `express.json()` makes of the request body before any route runs. */
  datatype BodyCheck = BodyAccepted | Malformed | TooLarge

  /** An incoming HTTP request, reduced to what the handlers read. */
  datatype Request = Request(verb: Method, path: string, body: BodyCheck, authorization: Option<string>, sessionQuery: Option<string>)

  /** Everything that changes the server state: a request (with the id
      `randomUUID` would produce and the clock), a client closing an SSE
      stream, an SSE response failing, and the periodic cleanup. */
  datatype Event =
    | Http(req: Request, freshId: string, now: int)
    | ClientClosed(id: string)
    | StreamFailed(id: string)
    | CleanupTick(now: int)

  function LowerAsciiChar(c: char): char
  {
    if 'A' <= c <= 'Z' then (c as int + 32) as char else c
  }

  /** ASCII lower case, the folding a case-insensitive route pattern applies
      to the ASCII route literals used here. */
  function LowerAscii(s: string): (r: string)
    ensures |r| == |s| && forall i :: 0 <= i < |s| ==> r[i] == LowerAsciiChar(s[i])
  {
    seq(|s|, i requires 0 <= i < |s| => LowerAsciiChar(s[i]))
  }

  /** Express's default route matching: case-insensitive, with an optional
      trailing slash. */
  predicate RouteIs(path: string, route: string)
  {
    var p := LowerAscii(path);
    p == route || p == route + "/"
  }

  predicate StreamableRoute(path: string)
  {
    RouteIs(path, "/http") || RouteIs(path, "/mcp")
  }

  /** No path matches two of the routes. */
  lemma RoutesDistinct(path: string)
    ensures StreamableRoute(path) ==> !RouteIs(path, "/sse") && !RouteIs(path, "/messages")
  {
    var p := LowerAscii(path);
    if RouteIs(path, "/http") { assert p[1] == 'h'; }
    if RouteIs(path, "/mcp") { assert p[1] == 'm' && p[2] == 'c'; }
  }

  predicate OpensStream(req: Request)
  {
    RouteIs(req.path, "/sse") && (req.verb == Get || req.verb == Head)
  }

  /** The routes `basicAuth` runs in front of. */
  predicate Guarded(req: Request)
  {
    || (req.verb == Post && (StreamableRoute(req.path) || RouteIs(req.path, "/messages")))
    || OpensStream(req)
  }

  /** One of the four paths the application registers. */
  predicate KnownRoute(path: string)
  {
    StreamableRoute(path) || RouteIs(path, "/sse") || RouteIs(path, "/messages")
  }

  /** The verbs the routes registered on `path` serve, as Express collects
      them for an OPTIONS request (a GET route serves HEAD too). */
  function RouteMethods(path: string): set<Method>
  {
    if StreamableRoute(path) then {Post, Get, Head, Delete}
    else if RouteIs(path, "/sse") then {Get, Head}
    else if RouteIs(path, "/messages") then {Post}
    else {}
  }

  /** The routing table: `express.json()` answers a body it cannot take
      before anything else; Express answers OPTIONS itself; `basicAuth`
      runs in front of the POST endpoints and `/sse`; GET (and so HEAD) and
      DELETE on `/http` and `/mcp` are refused without it. */
  function Handle(s: State, req: Request, freshId: string, now: int, decode: string -> string, env: Env): (r: (Reply, State))
    ensures req.body == Malformed ==> r == (BodyRejected(400), s)
    ensures req.body == TooLarge ==> r == (BodyRejected(413), s)
    ensures req.body == BodyAccepted && req.verb == Options ==>
      r.1 == s && (r.0.Allowed? <==> KnownRoute(req.path)) && (!r.0.Allowed? ==> r.0 == NotFound)
    ensures req.body == BodyAccepted && StreamableRoute(req.path) && req.verb in {Get, Head, Delete} ==> r == (NotAllowed, s)
    ensures req.body == BodyAccepted && BasicAuth(req.authorization, decode, env).Challenged? && Guarded(req) ==> r == (Challenge, s)
    ensures !Guarded(req) ==> r.1 == s
    ensures !OpensStream(req) ==> r.1.transports.Keys == s.transports.Keys && r.1.sseTransports == s.sseTransports
    ensures req.body == BodyAccepted && OpensStream(req) && BasicAuth(req.authorization, decode, env).Admitted? ==>
      r.0 == Stream(freshId) && freshId in r.1.transports && freshId in r.1.sseTransports
  {
    RoutesDistinct(req.path);
    var auth := BasicAuth(req.authorization, decode, env);
    if req.body == Malformed then (BodyRejected(400), s)
    else if req.body == TooLarge then (BodyRejected(413), s)
    else if req.verb == Options then
      (if KnownRoute(req.path) then Allowed(RouteMethods(req.path)) else NotFound, s)
    else if StreamableRoute(req.path) then
      match req.verb
      case Post =>
        (match auth
         case Challenged => (Challenge, s)
         case Admitted(u, p) =>
           (match ResolveCredentials(u, p, env)
            case Reject(reply) => (reply, s)
            case Use(u', p') => (Forward(u', p'), s)))
      case Get => (NotAllowed, s)
      case Head => (NotAllowed, s)
      case Delete => (NotAllowed, s)
      case _ => (NotFound, s)
    else if OpensStream(req) then
      match auth
      case Challenged => (Challenge, s)
      case Admitted(u, p) => (Stream(freshId), OpenSse(s, freshId, now, u, p))
    else if RouteIs(req.path, "/messages") && req.verb == Post then
      match auth
      case Challenged => (Challenge, s)
      case Admitted(u, p) => PostMessage(s, req.sessionQuery, u, p, env, now)
    else (NotFound, s)
  }

  /** A HEAD request to `/SSE/` opens a session just like `GET /sse`. */
  lemma HeadOpensSession(s: State, freshId: string, now: int, decode: string -> string)
    ensures var r := Handle(s, Request(Head, "/SSE/", BodyAccepted, None, None), freshId, now, decode, Env(None, None));
      r.0 == Stream(freshId) && freshId in r.1.transports
  {
    assert LowerAscii("/SSE/") == "/sse/";
  }

  /** The `Allow` list of an OPTIONS answer names exactly the verbs that
      reach a route on that path rather than Express's 404. */
  lemma AllowListsServedVerbs(s: State, path: string, m: Method, authorization: Option<string>, q: Option<string>,
                              freshId: string, now: int, decode: string -> string, env: Env)
    requires m != Options
    ensures var a := Handle(s, Request(Options, path, BodyAccepted, authorization, q), freshId, now, decode, env).0;
      var b := Handle(s, Request(m, path, BodyAccepted, authorization, q), freshId, now, decode, env).0;
      (a.Allowed? && m in a.methods) <==> b != NotFound
  {
    RoutesDistinct(path);
  }

  /** One transition of the server. */
  function Step(s: State, e: Event, decode: string -> string, env: Env): (r: State)
    ensures e.ClientClosed? ==> r.transports == s.transports && e.id !in r.sseTransports
    ensures e.CleanupTick? ==> r.sseTransports == s.sseTransports && r.transports.Keys <= s.transports.Keys
  {
    match e
    case Http(req, id, now) => Handle(s, req, id, now, decode, env).1
    case ClientClosed(id) => CloseSse(s, id)
    case StreamFailed(id) => CloseSse(s, id)
    case CleanupTick(now) => Cleanup(s, now)
  }

  /** Every stored session is an SSE session. */
  predicate AllSse(s: State)
  {
    forall id :: id in s.transports ==> s.transports[id].kind == Sse
  }

  /** No step stores anything but SSE sessions. */
  lemma StepKeepsAllSse(s: State, e: Event, decode: string -> string, env: Env)
    requires AllSse(s)
    ensures AllSse(Step(s, e, decode, env))
  {
    match e
    case Http(req, id, now) =>
      var auth := BasicAuth(req.authorization, decode, env);
      if req.body == BodyAccepted && !StreamableRoute(req.path) && !OpensStream(req) && RouteIs(req.path, "/messages") && req.verb == Post && auth.Admitted? {
        var r := PostMessage(s, req.sessionQuery, auth.username, auth.password, env, now);
        assert r.1 == s || r.0.Forward?;
      }
    case ClientClosed(id) =>
    case StreamFailed(id) =>
    case CleanupTick(now) =>
  }

  /** The state after a sequence of events. */
  function Run(s: State, events: seq<Event>, decode: string -> string, env: Env): State
    decreases |events|
  {
    if |events| == 0 then s else Run(Step(s, events[0], decode, env), events[1..], decode, env)
  }

  /** From the initial state only SSE sessions are ever stored. */
  lemma {:induction false} RunKeepsAllSse(s: State, events: seq<Event>, decode: string -> string, env: Env)
    requires AllSse(s)
    ensures AllSse(Run(s, events, decode, env))
    decreases |events|
  {
    if |events| > 0 {
      StepKeepsAllSse(s, events[0], decode, env);
      RunKeepsAllSse(Step(s, events[0], decode, env), events[1..], decode, env);
    }
  }

  /** So in any reachable state the "different transport protocol" reply of
      `/messages` comes only from a session id naming an inherited property. */
  lemma WrongProtocolOnlyForInheritedNames(events: seq<Event>, query: Option<string>, u: Option<string>, p: Option<string>, decode: string -> string, env: Env, now: int)
    ensures var s := Run(Initial, events, decode, env);
      PostMessage(s, query, u, p, env, now).0 == WrongProtocol ==> SessionKey(query) in InheritedNames
  {
    RunKeepsAllSse(Initial, events, decode, env);
  }

  /** And it does come: `sessionId=constructor` finds the inherited
      constructor, a truthy value that is no SSE transport. */
  lemma InheritedNameGetsWrongProtocol(u: string, p: Option<string>, env: Env, now: int)
    requires u != ""
    ensures PostMessage(Initial, Some("constructor"), Some(u), p, env, now).0 == WrongProtocol
  {
  }

  /** A stream the client has closed still accepts messages until the
      cleanup removes its session. */
  lemma ClosedSessionStillAccepts(s: State, id: string, u: string, p: Option<string>, env: Env, now: int)
    requires id in s.transports && s.transports[id].kind == Sse && u != ""
    ensures PostMessage(CloseSse(s, id), Some(id), Some(u), p, env, now).0 == Forward(s.transports[id].username, s.transports[id].password)
  {
  }

  /** The cleanup leaves the ids of removed SSE sessions in `sseTransports`. */
  lemma CleanupKeepsSseIds(s: State, id: string, now: int)
    requires id in s.transports && id in s.sseTransports
    requires now - s.transports[id].lastActivity > ConnectionTimeout
    ensures id !in Cleanup(s, now).transports && id in Cleanup(s, now).sseTransports
  {
  }

  /** A message touches only its own session. */
  lemma MessageTouchesOnlyItsSession(s: State, id: string, other: string, u: Option<string>, p: Option<string>, env: Env, now: int)
    requires other != id && other in s.transports
    ensures PostMessage(s, Some(id), u, p, env, now).1.transports[other] == s.transports[other]
  {
  }
}
