/**
  The Express proxy in server/server.js: the OAuth start and callback
  endpoints and the two channel endpoints.  Routing, CORS preflight and
  JSON body parsing belong to Express and its middleware; each handler here
  is one function from the request parts it reads to an `Outcome`.  The
  three Restream URLs are constants in this server, and the global
  `currentRestreamAccessToken` is never written, so every channel request
  stands on its own Authorization header.
*/
module LocalProxy {
  import opened Wrappers
  import opened Text
  import opened Restream

  const FrontendSettings := "http://localhost:1420/settings"
  const LocalScopes := "channels.read channels.write live.read"
  const BearerPrefix := "Bearer "

  /** GET /api/auth/restream. */
  function StartAuth(env: Env): (r: Response)
    ensures r.status == 500 <==> env.clientId == "" || env.redirectUri == ""
    ensures r.status != 500 ==> r == Response(200, [], AuthUrlReply(AuthUrl(DefaultAuthUrl, env.clientId, env.redirectUri, LocalScopes)))
  {
    if env.clientId == "" || env.redirectUri == "" then
      Response(500, [], ErrorField("Restream OAuth configuration is missing (CLIENT_ID or REDIRECT_URI)."))
    else Response(200, [], AuthUrlReply(AuthUrl(DefaultAuthUrl, env.clientId, env.redirectUri, LocalScopes)))
  }

  function LocalRedirect(s: AuthStatus): Response {
    Response(302, [], RedirectTo(FrontendSettings, s))
  }

  /** GET /auth/restream/callback: the same order of checks as the Netlify
      function; the refresh token is interpolated without a default. */
  function Callback(query: map<string, string>, env: Env, up: Upstream): Outcome {
    var error, code := Lookup(query, "error"), Lookup(query, "code");
    if Truthy(error) then Respond(LocalRedirect(AuthFailed(error.value)))
    else if !Truthy(code) then Respond(LocalRedirect(AuthFailed("No authorization code received.")))
    else if env.clientId == "" || env.clientSecret == "" || env.redirectUri == "" then
      Respond(LocalRedirect(AuthFailed("Server configuration error.")))
    else
      var status :=
        if up.Threw? then AuthFailed("Server error during token exchange.")
        else if !Ok(up) then AuthFailed(OrElse(up.errorDescription, "Failed to get access token."))
        else AuthSucceeded(Interpolate(up.accessToken), Interpolate(up.refreshToken));
      Outcome(Some(CodeExchange(DefaultTokenUrl, env, code.value)), LocalRedirect(status))
  }

  /** The two guards on the Authorization header of the channel endpoints. */
  datatype Auth = NoBearerHeader | NoSession | BearerToken(token: string)

  /** The header must start with `Bearer `; the token is then the second
      space-separated word, and an empty one means no session. */
  function CheckAuth(authorization: Option<string>): (a: Auth)
    ensures a == NoBearerHeader <==> !(Truthy(authorization) && StartsWith(authorization.value, BearerPrefix))
    ensures a.BearerToken? ==> a.token != "" && ' ' !in a.token
  {
    if !Truthy(authorization) || !StartsWith(authorization.value, BearerPrefix) then NoBearerHeader
    else
      var h := authorization.value;
      assert h == "Bearer" + [' '] + h[|BearerPrefix|..] by {
        assert h[..|BearerPrefix|] == BearerPrefix;
      }
      SplitWordThen("Bearer", ' ', h[|BearerPrefix|..]);
      var parts := Split(h, ' ');
      if parts[1] == "" then NoSession else BearerToken(parts[1])
  }

  /** `Bearer <token>` gives the token back. */
  lemma BearerRoundTrip(token: string)
    requires token != "" && ' ' !in token
    ensures CheckAuth(Some(BearerPrefix + token)) == BearerToken(token)
  {
    assert (BearerPrefix + token)[..|BearerPrefix|] == BearerPrefix;
    assert BearerPrefix + token == "Bearer" + " " + token;
    HeaderTokenOf("Bearer", token);
  }

  /** `Bearer ` with nothing after it is the "no active session" case. */
  lemma BearerWithoutToken()
    ensures CheckAuth(Some(BearerPrefix)) == NoSession
  {
    assert BearerPrefix[..|BearerPrefix|] == BearerPrefix;
    assert BearerPrefix == "Bearer" + " ";
    HeaderTokenEmpty("Bearer");
  }

  /** Whenever this server accepts a token, the Netlify function reads the
      same token from the same header; when it finds no session, so does the
      Netlify function. */
  lemma AuthAgreesWithNetlify(authorization: Option<string>)
    ensures CheckAuth(authorization).BearerToken? ==> HeaderToken(authorization) == Some(CheckAuth(authorization).token)
    ensures CheckAuth(authorization) == NoSession ==> HeaderToken(authorization) == None
  {
    if Truthy(authorization) && StartsWith(authorization.value, BearerPrefix) {
      var h := authorization.value;
      assert h == "Bearer" + [' '] + h[|BearerPrefix|..] by {
        assert h[..|BearerPrefix|] == BearerPrefix;
      }
      SplitWordThen("Bearer", ' ', h[|BearerPrefix|..]);
    }
  }

  /** The Netlify function does not look at the scheme word; this server does. */
  lemma SchemeOnlyCheckedHere()
    ensures HeaderToken(Some("Basic abc")) == Some("abc")
    ensures CheckAuth(Some("Basic abc")) == NoBearerHeader
  {
    assert "Basic abc" == "Basic" + " " + "abc";
    HeaderTokenOf("Basic", "abc");
    assert "Basic abc"[1] != BearerPrefix[1];
  }

  /** GET /api/restream-channels. */
  function ListChannels(authorization: Option<string>, up: Upstream): Outcome {
    match CheckAuth(authorization)
    case NoBearerHeader => Respond(Response(401, [], ErrorField("Unauthorized: Access Token required.")))
    case NoSession => Respond(Response(401, [], ErrorField("Unauthorized: No active Restream session.")))
    case BearerToken(token) =>
      Outcome(Some(Call("GET", DefaultApiBase + "/v2/user/channel/all", Some(token), [])), ListReply(up, false, []))
  }

  /** PATCH /api/restream-channels/:id, with the body as Express parsed it. */
  function PatchChannel(channelId: string, body: map<string, Value>, authorization: Option<string>, up: Upstream): Outcome {
    match CheckAuth(authorization)
    case NoBearerHeader => Respond(Response(401, [], ErrorField("Unauthorized: Access Token required.")))
    case NoSession => Respond(Response(401, [], ErrorField("Unauthorized: No active Restream session to update.")))
    case BearerToken(token) =>
      var enabled := Lookup(body, "enabled");
      if enabled.Some? && enabled.value.VBool? then
        Outcome(Some(UpdateCall(DefaultApiBase, channelId, token, enabled.value.b)), PatchReply(up, []))
      else Respond(Response(400, [], ErrorField("Invalid request: \"enabled\" must be a boolean.")))
  }

  /** Without a `Bearer ` header, or with an empty token, neither channel
      endpoint calls Restream, and both answer 401. */
  lemma NoBearerNoCall(channelId: string, body: map<string, Value>, authorization: Option<string>, up: Upstream)
    requires !CheckAuth(authorization).BearerToken?
    ensures ListChannels(authorization, up).call == None && ListChannels(authorization, up).response.status == 401
    ensures PatchChannel(channelId, body, authorization, up).call == None
    ensures PatchChannel(channelId, body, authorization, up).response.status == 401
  {
  }

  /** The update endpoint checks the header before the type of `enabled`,
      and only a boolean reaches Restream. */
  lemma PatchCheckOrder(channelId: string, body: map<string, Value>, authorization: Option<string>, up: Upstream)
    ensures var o := PatchChannel(channelId, body, authorization, up);
      var enabled := Lookup(body, "enabled");
      && (!CheckAuth(authorization).BearerToken? ==> o.response.status == 401)
      && (CheckAuth(authorization).BearerToken? && !(enabled.Some? && enabled.value.VBool?) ==>
            o == Respond(Response(400, [], ErrorField("Invalid request: \"enabled\" must be a boolean."))))
      && (o.call.Some? <==> CheckAuth(authorization).BearerToken? && enabled.Some? && enabled.value.VBool?)
  {
  }

  /** Restream's 401 and 403 reach the client as 401 on both channel endpoints. */
  lemma UpstreamAuthFailureIs401(channelId: string, body: map<string, Value>, authorization: Option<string>, up: Upstream)
    requires up.Replied? && (up.status == 401 || up.status == 403)
    ensures ListChannels(authorization, up).response.status == 401
    ensures PatchChannel(channelId, body, authorization, up).call.Some? ==> PatchChannel(channelId, body, authorization, up).response.status == 401
  {
  }

  /** A successful list has the upstream's channels, in order, each `online`
      exactly when enabled, named by its display name when it has one. */
  lemma ListedChannels(authorization: Option<string>, up: Upstream)
    requires CheckAuth(authorization).BearerToken? && Ok(up)
    ensures var r := ListChannels(authorization, up).response;
      && r.status == 200 && r.reply.ChannelsReply?
      && |r.reply.channels| == |up.channels|
      && forall i | 0 <= i < |up.channels| ::
           && r.reply.channels[i].id == up.channels[i].id
           && (r.reply.channels[i].status == "online" <==> up.channels[i].enabled)
           && (Truthy(up.channels[i].displayName) ==> r.reply.channels[i].name == up.channels[i].displayName)
           && r.reply.channels[i].privacy == None
  {
  }

  /** An `error` query parameter decides the callback before `code` is read. */
  lemma CallbackErrorFirst(query: map<string, string>, env: Env, up: Upstream)
    ensures var o := Callback(query, env, up);
      var error, code := Lookup(query, "error"), Lookup(query, "code");
      && (Truthy(error) ==> o == Respond(LocalRedirect(AuthFailed(error.value))))
      && (!Truthy(error) && !Truthy(code) ==> o == Respond(LocalRedirect(AuthFailed("No authorization code received."))))
      && (o.call.Some? ==> Truthy(code) && env.clientId != "" && env.clientSecret != "" && env.redirectUri != "")
  {
  }

  /** A successful exchange without a refresh token sends the text
      `undefined` here, where the Netlify function sends an empty string. */
  lemma MissingRefreshTokenDiffers(query: map<string, string>, env: Env, up: Upstream)
    requires Ok(up) && up.refreshToken.None?
    requires "code" in query && query["code"] != "" && !Truthy(Lookup(query, "error"))
    requires env.clientId != "" && env.clientSecret != "" && env.redirectUri != ""
    ensures Callback(query, env, up).response.reply.outcome.refreshToken == "undefined"
    ensures Restream.Callback(query, env, up).response.reply.outcome.refreshToken == ""
  {
  }
}
