/**
  The Restream proxy as a Netlify function
  (netlify/functions/server/server.js), together with the two pieces it
  shares with the Express proxy in server/server.js: the platform-name
  switch and the reshaping of the upstream channel list.

  The handler is one if/else chain over `(apiPath, httpMethod)` that returns
  a response record.  Network calls are not performed here: the handler says
  which upstream call it would make (`Outcome.call`), and the upstream's
  answer is a parameter (`Upstream`) that is read only when a call is made.
  JSON parsing of the request body is likewise an input (`RequestBody`).
  An unset environment variable is the empty string, which JavaScript
  treats the same way in `!x` and `x || d`.
*/
module Restream {
  import opened Wrappers
  import opened Text

  // ---- JavaScript values the handlers read ----

  /** A string-valued property that may be undefined is truthy when present and non-empty. */
  predicate Truthy(s: Option<string>) {
    s.Some? && s.value != ""
  }

  /** `s || d` for a string-valued property. */
  function OrElse(s: Option<string>, d: string): string {
    if Truthy(s) then s.value else d
  }

  /** Interpolation in a template literal: an undefined property prints as `undefined`. */
  function Interpolate(s: Option<string>): string {
    match s
    case None => "undefined"
    case Some(v) => v
  }

  /** A property value in a parsed JSON body; arrays and objects are not looked into. */
  datatype Value = VNull | VBool(b: bool) | VNumber(n: int) | VString(s: string) | VStructured

  /** JavaScript truthiness of a possibly undefined property value. */
  predicate ValueTruthy(v: Option<Value>) {
    match v
    case None => false
    case Some(VNull) => false
    case Some(VBool(b)) => b
    case Some(VNumber(n)) => n != 0
    case Some(VString(s)) => s != ""
    case Some(VStructured) => true
  }

  /** What `JSON.parse` made of the request body. */
  datatype RequestBody =
    | NoBody                                  // absent or empty: `event.body || '{}'`
    | Malformed                               // JSON.parse throws
    | JsonNull                                // the literal `null`
    | JsonObject(fields: map<string, Value>)
    | JsonOther                               // a number, string, boolean or array

  /** The parsed body as far as property reads go. */
  datatype Parsed = BadJson | NullJson | Props(fields: map<string, Value>)

  function ParseBody(b: RequestBody): (p: Parsed)
    ensures p == BadJson <==> b == Malformed
    ensures p == NullJson <==> b == JsonNull
    ensures b.JsonObject? ==> p == Props(b.fields)
    ensures b == NoBody || b == JsonOther ==> p == Props(map[])
  {
    match b
    case NoBody => Props(map[])
    case Malformed => BadJson
    case JsonNull => NullJson
    case JsonObject(fields) => Props(fields)
    case JsonOther => Props(map[])
  }

  // ---- platform names ----

  const KnownPlatformIds: set<int> := {37, 5, 7, 13, 67}

  const UnknownPrefix := "Unknown ("

  /** `getPlatformNameById`: five known Restream platform ids, every other id
      shown as `Unknown (<id>)`. */
  function PlatformNameById(platformId: int): (name: string)
    ensures platformId in KnownPlatformIds <==> !StartsWith(name, UnknownPrefix)
    ensures platformId !in KnownPlatformIds ==> name == UnknownPrefix + IntToString(platformId) + ")"
  {
    match platformId
    case 37 => "Facebook"
    case 5 => "YouTube"
    case 7 => "Twitch"
    case 13 => assert "X (Twitter)"[0] != UnknownPrefix[0]; "X (Twitter)"
    case 67 => "TikTok"
    case _ => UnknownPrefix + IntToString(platformId) + ")"
  }

  /** `String(n)` is one-to-one on naturals. */
  lemma NatToStringInjective(x: nat, y: nat)
    requires NatToString(x) == NatToString(y)
    ensures x == y
  {
    NatToStringValue(x);
    NatToStringValue(y);
  }

  /** `String(n)` is one-to-one: the sign is the leading `-`, the rest is the magnitude. */
  lemma IntToStringInjective(a: int, b: int)
    requires IntToString(a) == IntToString(b)
    ensures a == b
  {
    var s := IntToString(a);
    if a < 0 {
      assert s[0] == '-' && !IsDigit('-');
      assert b < 0;
      assert s[1..] == NatToString(-a);
      assert s[1..] == NatToString(-b);
      NatToStringInjective(-a, -b);
    } else {
      assert IsDigit(s[0]);
      assert b >= 0;
      NatToStringInjective(a, b);
    }
  }

  /** Different platform ids never share a name: the name identifies the id. */
  lemma PlatformNameInjective(a: int, b: int)
    requires a != b
    ensures PlatformNameById(a) != PlatformNameById(b)
  {
    if a !in KnownPlatformIds && b !in KnownPlatformIds {
      var na, nb := PlatformNameById(a), PlatformNameById(b);
      if na == nb {
        assert na[|UnknownPrefix|..|na| - 1] == IntToString(a);
        assert nb[|UnknownPrefix|..|nb| - 1] == IntToString(b);
        IntToStringInjective(a, b);
      }
    }
  }

  // ---- channel formatting ----

  /** One channel as the Restream API lists it. */
  datatype RawChannel = RawChannel(
    id: int, displayName: Option<string>, name: Option<string>, streamingPlatformId: int,
    enabled: bool, url: string, identifier: string, embedUrl: string, isPublic: bool)

  /** One channel as the proxy hands it to the front end; `privacy` is
      present only in the Netlify version. */
  datatype Channel = Channel(
    id: int, name: Option<string>, platform: string, status: string, enabled: bool,
    streamingPlatformId: int, url: string, identifier: string, embedUrl: string,
    privacy: Option<string>)

  /** The object literal inside `data.map(...)`. */
  function FormatChannel(c: RawChannel, withPrivacy: bool): (f: Channel)
    ensures f.status == "online" <==> c.enabled
    ensures f.status == "offline" <==> !c.enabled
    ensures Truthy(c.displayName) ==> f.name == c.displayName
    ensures !Truthy(c.displayName) ==> f.name == c.name
    ensures f.platform == PlatformNameById(c.streamingPlatformId)
    ensures f.id == c.id && f.enabled == c.enabled && f.streamingPlatformId == c.streamingPlatformId
    ensures f.url == c.url && f.identifier == c.identifier && f.embedUrl == c.embedUrl
    ensures withPrivacy ==> (f.privacy == Some("public") <==> c.isPublic)
    ensures withPrivacy ==> (f.privacy == Some("private") <==> !c.isPublic)
    ensures !withPrivacy ==> f.privacy == None
  {
    Channel(
      c.id,
      if Truthy(c.displayName) then c.displayName else c.name,
      PlatformNameById(c.streamingPlatformId),
      if c.enabled then "online" else "offline",
      c.enabled, c.streamingPlatformId, c.url, c.identifier, c.embedUrl,
      if withPrivacy then Some(if c.isPublic then "public" else "private") else None)
  }

  /** `data.map(...)`: one formatted channel per upstream channel, in order. */
  function FormatChannels(data: seq<RawChannel>, withPrivacy: bool): (r: seq<Channel>)
    ensures |r| == |data|
    ensures forall i | 0 <= i < |data| :: r[i] == FormatChannel(data[i], withPrivacy)
  {
    if data == [] then [] else [FormatChannel(data[0], withPrivacy)] + FormatChannels(data[1..], withPrivacy)
  }

  /** Formatting distributes over concatenation, so no channel is moved,
      dropped or duplicated. */
  lemma {:induction false} FormatChannelsAppend(a: seq<RawChannel>, b: seq<RawChannel>, withPrivacy: bool)
    ensures FormatChannels(a + b, withPrivacy) == FormatChannels(a, withPrivacy) + FormatChannels(b, withPrivacy)
    decreases |a|
  {
    if a != [] {
      assert (a + b)[1..] == a[1..] + b;
      FormatChannelsAppend(a[1..], b, withPrivacy);
    }
  }

  /** The Express list carries the same channels as the Netlify list, less
      the `privacy` field. */
  lemma FormatWithoutPrivacy(data: seq<RawChannel>)
    ensures var local, netlify := FormatChannels(data, false), FormatChannels(data, true);
      |local| == |netlify| && forall i | 0 <= i < |local| :: local[i] == netlify[i].(privacy := None)
  {
  }

  // ---- requests, upstream answers and responses ----

  datatype Request = Request(
    httpMethod: string, path: string, authorization: Option<string>,
    query: map<string, string>, body: RequestBody)

  /** The function's environment variables; the empty string means unset. */
  datatype Env = Env(
    clientId: string, clientSecret: string, redirectUri: string,
    oauthAuthUrl: string, oauthTokenUrl: string, apiBaseUrl: string)

  const DefaultAuthUrl := "https://api.restream.io/oauth/authorize"
  const DefaultTokenUrl := "https://api.restream.io/oauth/token"
  const DefaultApiBase := "https://api.restream.io"

  function OrDefault(s: string, d: string): string {
    if s != "" then s else d
  }

  /** An upstream call: method, URL, bearer token and body fields in order. */
  datatype Call = Call(verb: string, url: string, bearer: Option<string>, payload: seq<(string, Value)>)

  /** What the upstream `fetch` produced, holding every part some route reads.
      `Threw` stands for any throw inside the route's `try`: a failed
      `fetch`, a body that does not parse (`response.json()` on an error
      reply of the update route, `tokenResponse.json()`), or a property read
      on a `null` body such as a `null` chat reply.  `Replied` is a reply
      whose body parsed to an object. */
  datatype Upstream =
    | Threw
    | Replied(
        status: int, statusText: string, channels: seq<RawChannel>, webchatUrl: Option<string>,
        errorText: string, errorDescription: Option<string>, errorMessage: Option<string>,
        accessToken: Option<string>, refreshToken: Option<string>)

  /** `response.ok`. */
  predicate Ok(up: Upstream) {
    up.Replied? && 200 <= up.status <= 299
  }

  /** The query string of the front end's settings page after an OAuth round trip. */
  datatype AuthStatus = AuthFailed(message: string) | AuthSucceeded(accessToken: string, refreshToken: string)

  /** The authorisation URL, before its parts are percent-encoded and joined. */
  datatype AuthUrl = AuthUrl(base: string, clientId: string, redirectUri: string, scope: string)

  datatype Reply =
    | NoReply
    | ErrorField(error: string)          // `{ error: ... }`
    | MessageField(message: string)      // `{ message: ... }`
    | AuthUrlReply(authUrl: AuthUrl)
    | ChannelsReply(channels: seq<Channel>)
    | ChatUrlReply(webchatUrl: string)
    | UpstreamJson                       // the upstream's JSON passed through
    | RedirectTo(page: string, outcome: AuthStatus)

  datatype Response = Response(status: int, headers: seq<(string, string)>, reply: Reply)

  /** The response and the upstream call made on the way, if any. */
  datatype Outcome = Outcome(call: Option<Call>, response: Response)

  const FrontendOrigin := "https://prismatic-sorbet-b852f8.netlify.app"
  const SettingsPage := FrontendOrigin + "/settings"

  const CorsHeaders: seq<(string, string)> := [
    ("Access-Control-Allow-Origin", FrontendOrigin),
    ("Access-Control-Allow-Headers", "Content-Type, Authorization"),
    ("Access-Control-Allow-Methods", "GET,HEAD,PUT,PATCH,POST,DELETE"),
    ("Access-Control-Allow-Credentials", "true"),
    ("Content-Type", "application/json")]

  const FunctionBasePath := "/.netlify/functions/server"
  const PatchPrefix := "/api/restream-channels/"
  const Scopes := "channels.read channels.write live.read chat.read"

  function Json(status: int, r: Reply): Response {
    Response(status, CorsHeaders, r)
  }

  function Redirect(page: string, s: AuthStatus): Response {
    Response(302, [], RedirectTo(page, s))
  }

  function Respond(r: Response): Outcome {
    Outcome(None, r)
  }

  /** The outer catch: a property read on `null` throws a TypeError. */
  function Crashed(): Response {
    Json(500, MessageField("Internal Server Error"))
  }

  // ---- the bearer token ----

  /** `authHeader ? authHeader.split(' ')[1] : null`, read for truthiness:
      the second space-separated word, whatever the first one says. */
  function HeaderToken(authorization: Option<string>): (t: Option<string>)
    ensures t.Some? ==> Truthy(authorization) && t.value != "" && ' ' !in t.value
    ensures t.Some? ==> |Split(authorization.value, ' ')| >= 2 && t.value == Split(authorization.value, ' ')[1]
  {
    if !Truthy(authorization) then None
    else
      var parts := Split(authorization.value, ' ');
      if |parts| >= 2 && parts[1] != "" then Some(parts[1]) else None
  }

  /** A scheme word, one space and a token give back that token, with any
      scheme, not only `Bearer`. */
  lemma HeaderTokenOf(scheme: string, token: string)
    requires ' ' !in scheme && ' ' !in token && token != ""
    ensures HeaderToken(Some(scheme + " " + token)) == Some(token)
  {
    SplitWordThen(scheme, ' ', token);
    SplitNoSeparator(token, ' ');
    assert scheme + " " + token == scheme + [' '] + token;
  }

  /** A header with no space in it, a bare token included, carries no token. */
  lemma HeaderTokenNeedsSpace(h: string)
    requires ' ' !in h
    ensures HeaderToken(Some(h)) == None
  {
    SplitNoSeparator(h, ' ');
  }

  /** `Bearer ` followed by nothing carries no token. */
  lemma HeaderTokenEmpty(scheme: string)
    requires ' ' !in scheme
    ensures HeaderToken(Some(scheme + " ")) == None
  {
    SplitWordThen(scheme, ' ', "");
    assert scheme + " " == scheme + [' '] + "";
  }

  // ---- routes ----

  /** `event.path.replace(functionBasePath, '')`. */
  function ApiPath(path: string): string {
    ReplaceFirst(path, FunctionBasePath, "")
  }

  datatype Route = StartAuth | AuthCallback | ChatToken | ListChannels | PatchChannel(channelId: string) | RefreshToken | NoRoute

  /** The if/else chain of the handler. */
  function RouteOf(apiPath: string, httpMethod: string): (r: Route)
    ensures r == StartAuth <==> apiPath == "/api/auth/restream" && httpMethod == "GET"
    ensures r == AuthCallback <==> apiPath == "/auth/restream/callback" && httpMethod == "GET"
    ensures r == ChatToken <==> apiPath == "/api/chat-token" && httpMethod == "GET"
    ensures r == ListChannels <==> apiPath == "/api/restream-channels" && httpMethod == "GET"
    ensures r.PatchChannel? <==> StartsWith(apiPath, PatchPrefix) && httpMethod == "PATCH"
    ensures r.PatchChannel? ==> apiPath == PatchPrefix + r.channelId
    ensures r == RefreshToken <==> apiPath == "/api/auth/restream/refresh-token" && httpMethod == "POST"
  {
    if apiPath == "/api/auth/restream" && httpMethod == "GET" then StartAuth
    else if apiPath == "/auth/restream/callback" && httpMethod == "GET" then AuthCallback
    else if apiPath == "/api/chat-token" && httpMethod == "GET" then ChatToken
    else if apiPath == "/api/restream-channels" && httpMethod == "GET" then ListChannels
    else if StartsWith(apiPath, PatchPrefix) && httpMethod == "PATCH" then
      ReplacePrefix(apiPath, PatchPrefix);
      assert apiPath == PatchPrefix + apiPath[|PatchPrefix|..];
      PatchChannel(ReplaceFirst(apiPath, PatchPrefix, ""))
    else if apiPath == "/api/auth/restream/refresh-token" && httpMethod == "POST" then RefreshToken
    else NoRoute
  }

  /** The outcome of one request. */
  function Handle(req: Request, env: Env, up: Upstream): Outcome {
    if req.httpMethod == "OPTIONS" then Respond(Response(204, CorsHeaders, NoReply))
    else
      match RouteOf(ApiPath(req.path), req.httpMethod)
      case StartAuth => Respond(StartAuthReply(env))
      case AuthCallback => Callback(req.query, env, up)
      case ChatToken => ChatTokenRoute(req.authorization, env, up)
      case ListChannels => ListRoute(req.authorization, env, up)
      case PatchChannel(channelId) => PatchRoute(channelId, req.body, req.authorization, env, up)
      case RefreshToken => RefreshRoute(req.body, env, up)
      case NoRoute => Respond(Json(404, MessageField("API Route Not Found")))
  }

  /** GET /api/auth/restream. */
  function StartAuthReply(env: Env): Response {
    if env.clientId == "" || env.redirectUri == "" then
      Json(500, ErrorField("Restream OAuth configuration is missing (CLIENT_ID or REDIRECT_URI)."))
    else
      Json(200, AuthUrlReply(AuthUrl(OrDefault(env.oauthAuthUrl, DefaultAuthUrl), env.clientId, env.redirectUri, Scopes)))
  }

  /** The form body of the authorisation-code exchange. */
  function CodeExchange(tokenUrl: string, env: Env, code: string): Call {
    Call("POST", tokenUrl, None, [
      ("grant_type", VString("authorization_code")), ("client_id", VString(env.clientId)),
      ("client_secret", VString(env.clientSecret)), ("redirect_uri", VString(env.redirectUri)),
      ("code", VString(code))])
  }

  /** GET /auth/restream/callback: every branch redirects to the settings page. */
  function Callback(query: map<string, string>, env: Env, up: Upstream): Outcome {
    var error, code := Lookup(query, "error"), Lookup(query, "code");
    if Truthy(error) then Respond(Redirect(SettingsPage, AuthFailed(error.value)))
    else if !Truthy(code) then Respond(Redirect(SettingsPage, AuthFailed("No authorization code received.")))
    else if env.clientId == "" || env.clientSecret == "" || env.redirectUri == "" then
      Respond(Redirect(SettingsPage, AuthFailed("Server configuration error.")))
    else
      var status :=
        if up.Threw? then AuthFailed("Server error during token exchange.")
        else if !Ok(up) then AuthFailed(OrElse(up.errorDescription, "Failed to get access token."))
        else AuthSucceeded(Interpolate(up.accessToken), OrElse(up.refreshToken, ""));
      Outcome(Some(CodeExchange(OrDefault(env.oauthTokenUrl, DefaultTokenUrl), env, code.value)), Redirect(SettingsPage, status))
  }

  /** GET /api/chat-token: the upstream's 401 or 403 status is passed on as it is. */
  function ChatTokenRoute(authorization: Option<string>, env: Env, up: Upstream): Outcome {
    var token := HeaderToken(authorization);
    if token.None? then Respond(Json(401, MessageField("Authorization token missing for chat.")))
    else
      var reply :=
        if up.Threw? then Json(500, ErrorField("Internal Server Error while fetching chat token."))
        else if !Ok(up) then
          if up.status == 401 || up.status == 403 then
            Json(up.status, ErrorField("Unauthorized or Forbidden: Check scope (chat.read) or token validity."))
          else Json(up.status, ErrorField("Failed to fetch chat token: " + up.errorText))
        else if !Truthy(up.webchatUrl) then Json(500, ErrorField("webChatUrl not found in Restream API response."))
        else Json(200, ChatUrlReply(up.webchatUrl.value));
      Outcome(Some(Call("GET", OrDefault(env.apiBaseUrl, DefaultApiBase) + "/v2/user/webchat/url", token, [])), reply)
  }

  /** The answer to the channel-list call, shared by both proxies: 401 and
      403 normalised to 401, other failures passed on, success reshaped. */
  function ListReply(up: Upstream, withPrivacy: bool, headers: seq<(string, string)>): Response {
    if up.Threw? then Response(500, headers, ErrorField("Internal Server Error"))
    else if !Ok(up) then
      if up.status == 401 || up.status == 403 then Response(401, headers, ErrorField("Unauthorized: Restream Token invalid or expired."))
      else Response(up.status, headers, ErrorField("Failed to fetch channels from Restream API: " + up.errorText))
    else Response(200, headers, ChannelsReply(FormatChannels(up.channels, withPrivacy)))
  }

  /** The answer to the channel-update call, shared by both proxies. */
  function PatchReply(up: Upstream, headers: seq<(string, string)>): Response {
    if up.Threw? then Response(500, headers, ErrorField("Internal Server Error"))
    else if !Ok(up) then
      if up.status == 401 || up.status == 403 then Response(401, headers, ErrorField("Unauthorized: Restream Token invalid or expired."))
      else Response(up.status, headers, ErrorField("Failed to update channel status: " + OrElse(up.errorMessage, up.statusText)))
    else Response(200, headers, UpstreamJson)
  }

  /** The upstream request that switches a channel on or off. */
  function UpdateCall(apiBase: string, channelId: string, token: string, enabled: bool): Call {
    Call("PATCH", apiBase + "/v2/user/channel/" + channelId, Some(token), [("active", VBool(enabled))])
  }

  /** GET /api/restream-channels. */
  function ListRoute(authorization: Option<string>, env: Env, up: Upstream): Outcome {
    var token := HeaderToken(authorization);
    if token.None? then Respond(Json(401, ErrorField("Unauthorized: Access Token required.")))
    else Outcome(Some(Call("GET", OrDefault(env.apiBaseUrl, DefaultApiBase) + "/v2/user/channel/all", token, [])), ListReply(up, true, CorsHeaders))
  }

  /** PATCH /api/restream-channels/<id>: body, then token, then the type of `enabled`. */
  function PatchRoute(channelId: string, body: RequestBody, authorization: Option<string>, env: Env, up: Upstream): Outcome {
    match ParseBody(body)
    case BadJson => Respond(Json(400, ErrorField("Invalid JSON body.")))
    case NullJson => Respond(Crashed())
    case Props(fields) =>
      var token := HeaderToken(authorization);
      if token.None? then Respond(Json(401, ErrorField("Unauthorized: Access Token required.")))
      else
        var enabled := Lookup(fields, "enabled");
        if enabled.Some? && enabled.value.VBool? then
          Outcome(Some(UpdateCall(OrDefault(env.apiBaseUrl, DefaultApiBase), channelId, token.value, enabled.value.b)), PatchReply(up, CorsHeaders))
        else Respond(Json(400, ErrorField("Invalid request: \"enabled\" must be a boolean.")))
  }

  /** POST /api/auth/restream/refresh-token. */
  function RefreshRoute(body: RequestBody, env: Env, up: Upstream): Outcome {
    match ParseBody(body)
    case BadJson => Respond(Json(400, ErrorField("Invalid JSON body.")))
    case NullJson => Respond(Crashed())
    case Props(fields) =>
      var refreshToken := Lookup(fields, "refreshToken");
      if !ValueTruthy(refreshToken) then Respond(Json(400, ErrorField("Refresh token is missing.")))
      else if env.clientId == "" || env.clientSecret == "" then Respond(Json(500, ErrorField("Server config missing for OAuth.")))
      else
        var reply :=
          if up.Threw? then Json(500, ErrorField("Internal Server Error"))
          else if !Ok(up) then Json(up.status, ErrorField(OrElse(up.errorDescription, "Failed to refresh token.")))
          else Json(200, UpstreamJson);
        var call := Call("POST", OrDefault(env.oauthTokenUrl, DefaultTokenUrl), None, [
          ("grant_type", VString("refresh_token")), ("client_id", VString(env.clientId)),
          ("client_secret", VString(env.clientSecret)), ("refresh_token", refreshToken.value)]);
        Outcome(Some(call), reply)
  }

  // ---- properties of the handler ----

  /** A preflight request gets 204 with the CORS headers, whatever its path. */
  lemma PreflightAnyPath(req: Request, env: Env, up: Upstream)
    requires req.httpMethod == "OPTIONS"
    ensures Handle(req, env, up) == Outcome(None, Response(204, CorsHeaders, NoReply))
  {
  }

  /** Every (path, method) pair outside the six routes gets 404 without an upstream call. */
  lemma UnknownRoute(req: Request, env: Env, up: Upstream)
    requires req.httpMethod != "OPTIONS"
    requires var p, m := ApiPath(req.path), req.httpMethod;
      !(m == "GET" && (p == "/api/auth/restream" || p == "/auth/restream/callback" || p == "/api/chat-token" || p == "/api/restream-channels"))
      && !(m == "PATCH" && StartsWith(p, PatchPrefix))
      && !(m == "POST" && p == "/api/auth/restream/refresh-token")
    ensures Handle(req, env, up) == Outcome(None, Json(404, MessageField("API Route Not Found")))
  {
    assert RouteOf(ApiPath(req.path), req.httpMethod) == NoRoute;
  }

  /** Every path with the update prefix reaches the update route, with the
      rest of the path as channel id, even an empty rest. */
  lemma PatchPrefixRoutes(rest: string)
    ensures RouteOf(PatchPrefix + rest, "PATCH") == PatchChannel(rest)
  {
    assert StartsWith(PatchPrefix + rest, PatchPrefix) by {
      assert (PatchPrefix + rest)[..|PatchPrefix|] == PatchPrefix;
    }
  }

  /** A PATCH request whose path has the update prefix is handled by the
      update route, with the rest of the path as channel id. */
  lemma PatchRouted(req: Request, env: Env, up: Upstream)
    requires req.httpMethod == "PATCH" && StartsWith(ApiPath(req.path), PatchPrefix)
    ensures Handle(req, env, up) == PatchRoute(ApiPath(req.path)[|PatchPrefix|..], req.body, req.authorization, env, up)
  {
    var p := ApiPath(req.path);
    var r := RouteOf(p, req.httpMethod);
    assert r == PatchChannel(p[|PatchPrefix|..]) by {
      assert p == PatchPrefix + r.channelId;
      assert p[|PatchPrefix|..] == r.channelId;
    }
  }

  /** The body is checked first on the update route: a malformed body is
      400 before the token is looked at, and a `null` body crashes into the
      outer catch. */
  lemma PatchBodyFirst(channelId: string, body: RequestBody, authorization: Option<string>, env: Env, up: Upstream)
    ensures body == Malformed ==>
      PatchRoute(channelId, body, authorization, env, up) == Respond(Json(400, ErrorField("Invalid JSON body.")))
    ensures body == JsonNull ==> PatchRoute(channelId, body, authorization, env, up) == Respond(Crashed())
  {
  }

  /** With a parsable body, a missing token is 401 before the type of
      `enabled` is looked at, and then a non-boolean `enabled` is 400. */
  lemma PatchTokenBeforeType(channelId: string, body: RequestBody, authorization: Option<string>, env: Env, up: Upstream)
    requires body != Malformed && body != JsonNull
    ensures HeaderToken(authorization).None? ==>
      PatchRoute(channelId, body, authorization, env, up) == Respond(Json(401, ErrorField("Unauthorized: Access Token required.")))
    ensures var enabled := if body.JsonObject? then Lookup(body.fields, "enabled") else None;
      HeaderToken(authorization).Some? && !(enabled.Some? && enabled.value.VBool?) ==>
      PatchRoute(channelId, body, authorization, env, up) == Respond(Json(400, ErrorField("Invalid request: \"enabled\" must be a boolean.")))
  {
  }

  /** Only a boolean `enabled` with a token reaches Restream, as a PATCH of
      that channel carrying `active: enabled`. */
  lemma PatchReachesRestream(channelId: string, body: RequestBody, authorization: Option<string>, env: Env, up: Upstream)
    ensures var o := PatchRoute(channelId, body, authorization, env, up);
      var token := HeaderToken(authorization);
      var enabled := if body.JsonObject? then Lookup(body.fields, "enabled") else None;
      && (o.call.Some? <==> token.Some? && enabled.Some? && enabled.value.VBool?)
      && (o.call.Some? ==> o.call == Some(UpdateCall(OrDefault(env.apiBaseUrl, DefaultApiBase), channelId, token.value, enabled.value.b)))
  {
  }

  /** Restream's 401 and 403 reach the client as 401 on the list and the
      update routes. */
  lemma UpstreamAuthFailureIs401(req: Request, env: Env, up: Upstream)
    requires req.httpMethod == "GET" || req.httpMethod == "PATCH"
    requires var r := RouteOf(ApiPath(req.path), req.httpMethod); r == ListChannels || r.PatchChannel?
    requires up.Replied? && (up.status == 401 || up.status == 403)
    ensures var o := Handle(req, env, up); o.call.Some? ==> o.response.status == 401
  {
  }

  /** The chat-token route passes Restream's 401 and 403 on unchanged. */
  lemma ChatTokenKeepsAuthStatus(authorization: Option<string>, env: Env, up: Upstream)
    requires up.Replied? && (up.status == 401 || up.status == 403)
    ensures var o := ChatTokenRoute(authorization, env, up); o.call.Some? ==> o.response.status == up.status
  {
  }

  /** Each route of the handler, reached through the path and the method. */
  lemma Dispatch(req: Request, env: Env, up: Upstream)
    requires req.httpMethod != "OPTIONS"
    ensures var r := RouteOf(ApiPath(req.path), req.httpMethod); var o := Handle(req, env, up);
      && (r == ChatToken ==> o == ChatTokenRoute(req.authorization, env, up))
      && (r == ListChannels ==> o == ListRoute(req.authorization, env, up))
      && (r == RefreshToken ==> o == RefreshRoute(req.body, env, up))
      && (r == AuthCallback ==> o == Callback(req.query, env, up))
  {
  }

  /** The channel list, once Restream answers, has one entry per upstream
      channel, in order, each `online` exactly when enabled. */
  lemma ListedChannels(req: Request, env: Env, up: Upstream)
    requires req.httpMethod == "GET" && ApiPath(req.path) == "/api/restream-channels"
    requires Ok(up)
    ensures var o := Handle(req, env, up);
      o.call.Some? ==>
        && o.response.status == 200
        && o.response.reply.ChannelsReply?
        && |o.response.reply.channels| == |up.channels|
        && forall i | 0 <= i < |up.channels| ::
             o.response.reply.channels[i].id == up.channels[i].id
             && (o.response.reply.channels[i].status == "online" <==> up.channels[i].enabled)
             && (o.response.reply.channels[i].privacy == Some("public") <==> up.channels[i].isPublic)
  {
  }

  /** Without a token neither the list nor the chat route calls Restream. */
  lemma NoTokenNoCall(req: Request, env: Env, up: Upstream)
    requires req.httpMethod == "GET"
    requires ApiPath(req.path) == "/api/restream-channels" || ApiPath(req.path) == "/api/chat-token"
    requires HeaderToken(req.authorization).None?
    ensures Handle(req, env, up).call.None? && Handle(req, env, up).response.status == 401
  {
  }

  /** A body without a refresh token is 400 whatever the environment holds:
      the token is checked before the client credentials. */
  lemma RefreshTokenCheckedFirst(req: Request, env: Env, up: Upstream)
    requires req.httpMethod == "POST" && ApiPath(req.path) == "/api/auth/restream/refresh-token"
    requires req.body == NoBody || req.body == JsonOther
             || (req.body.JsonObject? && !ValueTruthy(Lookup(req.body.fields, "refreshToken")))
    ensures Handle(req, env, up) == Respond(Json(400, ErrorField("Refresh token is missing.")))
  {
  }

  /** An `error` query parameter decides the callback before `code` and the
      configuration are looked at; a missing code fails next. */
  lemma CallbackErrorFirst(req: Request, env: Env, up: Upstream)
    requires req.httpMethod == "GET" && ApiPath(req.path) == "/auth/restream/callback"
    ensures var o := Handle(req, env, up);
      var error, code := Lookup(req.query, "error"), Lookup(req.query, "code");
      && (Truthy(error) ==> o == Respond(Redirect(SettingsPage, AuthFailed(error.value))))
      && (!Truthy(error) && !Truthy(code) ==> o == Respond(Redirect(SettingsPage, AuthFailed("No authorization code received."))))
      && (o.call.Some? ==> Truthy(code) && env.clientId != "" && env.clientSecret != "" && env.redirectUri != "")
  {
  }

  /** A successful exchange without a refresh token sends an empty one to the
      front end. */
  lemma CallbackMissingRefreshToken(query: map<string, string>, env: Env, up: Upstream)
    requires Ok(up) && up.refreshToken.None?
    requires "code" in query && query["code"] != "" && !Truthy(Lookup(query, "error"))
    requires env.clientId != "" && env.clientSecret != "" && env.redirectUri != ""
    ensures Callback(query, env, up).response.reply.outcome == AuthSucceeded(Interpolate(up.accessToken), "")
  {
  }
}
