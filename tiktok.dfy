/** The TikTok account-linking and upload gate (apps/tiktok/main.py): a store of two
    JSON records on disk, the OAuth callback that fills it, and the upload handler that
    reads it and lets only the one authorized account upload. */
module TikTok {
  import opened PyJson
  import opened Http

  /** The single account allowed to link and upload. */
  const AuthorizedUsername: string := "lawrence72"

  const TokenUrl: string := "https://open-api.tiktok.com/oauth/access_token"
  const UserInfoUrl: string := "https://open-api.tiktok.com/user/info/"
  const UploadUrl: string := "https://open-api.tiktokglobalshop.com/video/upload/"
  const GrantType: string := "authorization_code"
  const VideoContentType: string := "video/mp4"

  const NoUserMessage: string := "No user confirmed"
  const LockedMessage: string := "Uploads locked to lawrence72 only"
  const NoTokenMessage: string := "No access token. Please authenticate first."
  const UnauthorizedMessage: string := "Unauthorized account"
  const ConfirmedMessage: string := "Account confirmed"

  /** Where the username and the access token sit in the provider's payloads. */
  const UsernamePath: seq<string> := ["data", "user", "username"]
  const AccessTokenPath: seq<string> := ["data", "access_token"]

  /** The credentials read from the environment; each may be unset. */
  datatype Settings = Settings(clientId: Option<string>, clientSecret: Option<string>, redirectUri: Option<string>)

  /** The outbound requests, recorded as what was sent. */
  datatype TokenRequest = TokenRequest(
    url: string, clientKey: Option<string>, clientSecret: Option<string>,
    code: string, grantType: string, redirectUri: Option<string>)
  datatype ProfileRequest = ProfileRequest(url: string, bearer: Json)
  datatype Video = Video(filename: string, content: seq<bv8>)
  datatype UploadRequest = UploadRequest(
    url: string, bearer: Json, filename: string, content: seq<bv8>,
    contentType: string, caption: string)

  /** What loading a record file yields: its JSON, or None when the file does not exist.
      A stored JSON null reads back as None too, as in Python. */
  function Loaded(file: Option<Json>): Json {
    match file
    case Some(j) => j
    case None => JNull
  }

  /** The data directory and the two record files in it. */
  class Store {
    var dataDir: bool          // the data directory exists
    var tokens: Option<Json>   // data/tiktok_tokens.json, None while absent
    var user: Option<Json>     // data/tiktok_user.json, None while absent

    /** A file can only exist inside an existing directory. */
    ghost predicate Valid()
      reads this
    {
      (tokens.Some? || user.Some?) ==> dataDir
    }

    /** A first run: nothing has been written yet. */
    constructor ()
      ensures Valid()
      ensures !dataDir && tokens == None && user == None
    {
      dataDir, tokens, user := false, None, None;
    }

    /** save_tokens: create the directory if needed and replace the token record. */
    method SaveTokens(data: Json)
      modifies this
      ensures Valid()
      ensures dataDir && tokens == Some(data) && user == old(user)
    {
      dataDir := true;
      tokens := Some(data);
    }

    /** load_tokens. */
    method LoadTokens() returns (r: Json)
      ensures tokens.None? ==> r == JNull
      ensures tokens.Some? ==> r == tokens.value
    {
      r := Loaded(tokens);
    }

    /** save_user: replace the user record; the directory is not created, so the write
        fails when it does not exist yet. */
    method SaveUser(info: Json) returns (fault: Option<Exc>)
      requires Valid()
      modifies this
      ensures Valid()
      ensures fault.None? <==> old(dataDir)
      ensures fault.Some? ==> fault.value == FileNotFound && user == old(user)
      ensures fault.None? ==> user == Some(info)
      ensures tokens == old(tokens) && dataDir == old(dataDir)
    {
      if !dataDir {
        return Some(FileNotFound);
      }
      user := Some(info);
      fault := None;
    }

    /** load_user. */
    method LoadUser() returns (r: Json)
      ensures user.None? ==> r == JNull
      ensures user.Some? ==> r == user.value
    {
      r := Loaded(user);
    }
  }

  /** `profile.get("data", {}).get("user", {}).get("username")`. Each missing level defaults,
      so only a present, non-null username found through dicts at every level comes back
      as that username; a level that is present but not a dict raises. */
  function UsernameOf(profile: Json): (r: Py<Json>)
    ensures Lookup(profile, UsernamePath).Some? ==> r == Ok(Lookup(profile, UsernamePath).value)
    ensures r.Ok? && r.value != JNull ==> Lookup(profile, UsernamePath) == Some(r.value)
    ensures r.Raise? <==> GetChainRaises(profile, UsernamePath)
    ensures Lookup(profile, UsernamePath).None? && !GetChainRaises(profile, UsernamePath) ==> r == Ok(JNull)
    ensures profile.JObj? && "data" !in profile.fields ==> r == Ok(JNull)
    ensures !profile.JObj? ==> r == Raise(AttributeError)
    ensures r.Raise? ==> r.exc == AttributeError
  {
    var data :- Get(profile, "data", EmptyDict);
    var user :- Get(data, "user", EmptyDict);
    Get(user, "username", JNull)
  }

  /** The profile names the authorized account at data.user.username. */
  predicate IsAuthorizedProfile(profile: Json) {
    Lookup(profile, UsernamePath) == Some(JStr(AuthorizedUsername))
  }

  /** `v["data"]["access_token"]`: the callback takes its bearer token this way, and
      get_access_token returns it once its guard has passed. */
  function TokenField(v: Json): (r: Py<Json>)
    ensures r.Ok? <==> Lookup(v, AccessTokenPath).Some?
    ensures r.Ok? ==> r.value == Lookup(v, AccessTokenPath).value
    ensures r.Raise? ==> r.exc == TypeError || r.exc.KeyError?
  {
    var d :- Index(v, "data");
    Index(d, "access_token")
  }

  /** The lookup of get_access_token over a loaded token record:
      `tokens["data"]["access_token"]` when the record is truthy and its `data` holds
      `access_token`, otherwise None. */
  function AccessTokenOf(tokens: Json): (r: Py<Json>)
    ensures !Truthy(tokens) ==> r == Ok(JNull)
    ensures Lookup(tokens, AccessTokenPath).Some? ==> r == Ok(Lookup(tokens, AccessTokenPath).value)
    ensures r.Ok? && r.value != JNull ==> Lookup(tokens, AccessTokenPath) == Some(r.value)
    ensures tokens.JObj? && "data" !in tokens.fields ==> r == Ok(JNull)
    ensures (tokens.JObj? && "data" in tokens.fields && tokens.fields["data"].JObj?
             && "access_token" !in tokens.fields["data"].fields) ==> r == Ok(JNull)
    ensures TokenField(tokens).Ok? ==> r == TokenField(tokens)
    ensures Truthy(tokens) && !tokens.JObj? ==> r == Raise(AttributeError)
    ensures r.Raise? ==> r.exc == AttributeError || r.exc == TypeError
    ensures r.Raise? <==>
              (Truthy(tokens) && (!tokens.JObj? ||
                 ("data" in tokens.fields && Contains(tokens.fields["data"], "access_token") != Ok(false)
                  && TokenField(tokens).Raise?)))
  {
    if !Truthy(tokens) then Ok(JNull)
    else
      var data :- Get(tokens, "data", EmptyDict);
      var present :- Contains(data, "access_token");
      if present then
        TokenField(tokens)
      else
        Ok(JNull)
  }

  /** get_access_token. */
  method GetAccessToken(store: Store) returns (r: Py<Json>)
    ensures r == AccessTokenOf(Loaded(store.tokens))
    ensures store.tokens.None? ==> r == Ok(JNull)
  {
    var tokens := store.LoadTokens();
    r := AccessTokenOf(tokens);
  }

  /** The record state under which an upload may go out: the stored profile names the
      authorized account and the stored token record holds a truthy access token. */
  predicate UploadPermitted(user: Json, tokens: Json) {
    && IsAuthorizedProfile(user)
    && Lookup(tokens, AccessTokenPath).Some?
    && Truthy(Lookup(tokens, AccessTokenPath).value)
  }


  /** The token exchange: post, raise_for_status, json(). */
  function ExchangedTokens(t: Transport): (r: Py<Json>)
    ensures r.Ok? <==> t.Delivered? && !IsErrorStatus(t.reply.status) && t.reply.body.Some?
    ensures r.Ok? ==> r.value == t.reply.body.value
    ensures t.Delivered? && IsErrorStatus(t.reply.status) ==> r == Raise(HttpError(t.reply.errorText))
  {
    var reply :- Received(t);
    match RaiseForStatus(reply)
    case Some(e) => Raise(e)
    case None => JsonBody(reply)
  }

  /** The profile fetch: get, json(). No status check: an error reply with a JSON body is
      taken as the profile. */
  function FetchedProfile(t: Transport): (r: Py<Json>)
    ensures r.Ok? <==> t.Delivered? && t.reply.body.Some?
    ensures r.Ok? ==> r.value == t.reply.body.value
  {
    var reply :- Received(t);
    JsonBody(reply)
  }

  function CallbackReply(status: string, message: string, user: Json): Json {
    JObj(map["status" := JStr(status), "message" := JStr(message), "user" := user])
  }

  function ErrorReply(message: string): Json {
    JObj(map["error" := JStr(message)])
  }

  /** The callback's last step: compare the fetched username with the authorized one. */
  function CallbackVerdict(info: Json): (r: Py<Json>)
    ensures IsAuthorizedProfile(info) <==> r == Ok(CallbackReply("ok", ConfirmedMessage, info))
    ensures UsernameOf(info).Ok? && !IsAuthorizedProfile(info) ==>
              r == Ok(CallbackReply("error", UnauthorizedMessage, info))
    ensures r.Raise? <==> UsernameOf(info).Raise?
  {
    var username :- UsernameOf(info);
    if username != JStr(AuthorizedUsername) then
      assert CallbackReply("error", UnauthorizedMessage, info).fields["status"] != JStr("ok");
      Ok(CallbackReply("error", UnauthorizedMessage, info))
    else
      Ok(CallbackReply("ok", ConfirmedMessage, info))
  }

  /** The upload's result once the request went out: a transport fault propagates, an
      error status is caught and reported with the raw text, a success reports the parsed
      body (whose parsing may itself raise). */
  function UploadResult(t: Transport): (r: Py<Json>)
    ensures t.Delivered? && IsErrorStatus(t.reply.status) ==>
              r == Ok(JObj(map["error" := JStr(t.reply.errorText), "response" := JStr(t.reply.text)]))
    ensures t.Delivered? && !IsErrorStatus(t.reply.status) && t.reply.body.Some? ==>
              r == Ok(JObj(map["status" := JStr("success"), "response" := t.reply.body.value]))
    ensures r.Raise? <==> t.Failed? || (!IsErrorStatus(t.reply.status) && t.reply.body.None?)
  {
    var reply :- Received(t);
    if RaiseForStatus(reply).Some? then
      Ok(JObj(map["error" := JStr(reply.errorText), "response" := JStr(reply.text)]))
    else
      var body :- JsonBody(reply);
      Ok(JObj(map["status" := JStr("success"), "response" := body]))
  }

  /** tiktok_callback. The replies of the two provider calls are parameters; the method
      returns the handler's outcome and the requests it sent. */
  method TikTokCallback(store: Store, settings: Settings, code: string, state: Option<string>,
                        exchange: Transport, profile: Transport)
    returns (outcome: Py<Json>, tokenRequest: TokenRequest, profileRequest: Option<ProfileRequest>)
    requires store.Valid()
    modifies store
    ensures store.Valid()
    ensures tokenRequest == TokenRequest(TokenUrl, settings.clientId, settings.clientSecret,
                                         code, GrantType, settings.redirectUri)
    // a failed exchange raises before anything is stored or fetched
    ensures ExchangedTokens(exchange).Raise? ==>
              && outcome == Raise(ExchangedTokens(exchange).exc)
              && profileRequest == None
              && store.dataDir == old(store.dataDir)
              && store.tokens == old(store.tokens) && store.user == old(store.user)
    // a successful exchange is stored before anything else can fail
    ensures ExchangedTokens(exchange).Ok? ==>
              store.dataDir && store.tokens == Some(ExchangedTokens(exchange).value)
    ensures ExchangedTokens(exchange).Ok? && TokenField(ExchangedTokens(exchange).value).Raise? ==>
              var data := ExchangedTokens(exchange).value;
              && outcome == Raise(TokenField(data).exc)
              && profileRequest == None && store.user == old(store.user)
    ensures ExchangedTokens(exchange).Ok? && TokenField(ExchangedTokens(exchange).value).Ok? ==>
              var data := ExchangedTokens(exchange).value;
              && profileRequest == Some(ProfileRequest(UserInfoUrl, TokenField(data).value))
              && AccessTokenOf(data) == TokenField(data)
    // the profile is stored before the username is checked, and is kept either way
    ensures ExchangedTokens(exchange).Ok? && TokenField(ExchangedTokens(exchange).value).Ok? ==>
              if FetchedProfile(profile).Raise? then
                outcome == Raise(FetchedProfile(profile).exc) && store.user == old(store.user)
              else
                && store.user == Some(FetchedProfile(profile).value)
                && outcome == CallbackVerdict(FetchedProfile(profile).value)
    // a confirmed account leaves the records an upload needs, holding the token the profile was fetched with
    ensures outcome == Ok(CallbackReply("ok", ConfirmedMessage, Loaded(store.user))) ==>
              && IsAuthorizedProfile(Loaded(store.user))
              && profileRequest.Some?
              && Lookup(Loaded(store.tokens), AccessTokenPath) == Some(profileRequest.value.bearer)
              && (UploadPermitted(Loaded(store.user), Loaded(store.tokens)) <==> Truthy(profileRequest.value.bearer))
  {
    tokenRequest := TokenRequest(TokenUrl, settings.clientId, settings.clientSecret,
                                 code, GrantType, settings.redirectUri);
    profileRequest := None;
    var data :- ExchangedTokens(exchange);
    store.SaveTokens(data);
    var accessToken :- TokenField(data);
    profileRequest := Some(ProfileRequest(UserInfoUrl, accessToken));
    var userInfo :- FetchedProfile(profile);
    var fault := store.SaveUser(userInfo);
    assert fault.None?;  // SaveTokens has just created the directory, so save_user cannot fail here
    outcome := CallbackVerdict(userInfo);
  }

  /** upload_video. The three guards run in order, each returning its error without any
      request; only past all of them is the single upload sent, with the stored token. */
  method UploadVideo(store: Store, video: Video, caption: string, provider: Transport)
    returns (outcome: Py<Json>, sent: Option<UploadRequest>)
    ensures sent.Some? <==> UploadPermitted(Loaded(store.user), Loaded(store.tokens))
    ensures !Truthy(Loaded(store.user)) ==> outcome == Ok(ErrorReply(NoUserMessage))
    ensures var u := Loaded(store.user);
            Truthy(u) && UsernameOf(u).Raise? ==> outcome == Raise(UsernameOf(u).exc)
    ensures var u := Loaded(store.user);
            Truthy(u) && UsernameOf(u).Ok? && !IsAuthorizedProfile(u) ==>
              outcome == Ok(ErrorReply(LockedMessage))
    ensures var t := AccessTokenOf(Loaded(store.tokens));
            IsAuthorizedProfile(Loaded(store.user)) && t.Raise? ==> outcome == Raise(t.exc)
    ensures var t := AccessTokenOf(Loaded(store.tokens));
            IsAuthorizedProfile(Loaded(store.user)) && t.Ok? && !Truthy(t.value) ==>
              outcome == Ok(ErrorReply(NoTokenMessage))
    ensures sent.Some? ==>
              && sent.value == UploadRequest(UploadUrl, Lookup(Loaded(store.tokens), AccessTokenPath).value,
                                             video.filename, video.content, VideoContentType, caption)
              && outcome == UploadResult(provider)
  {
    sent := None;
    var userInfo := store.LoadUser();
    if !Truthy(userInfo) {
      return Ok(ErrorReply(NoUserMessage)), None;
    }
    var username :- UsernameOf(userInfo);
    if username != JStr(AuthorizedUsername) {
      return Ok(ErrorReply(LockedMessage)), None;
    }
    var accessToken :- GetAccessToken(store);
    if !Truthy(accessToken) {
      return Ok(ErrorReply(NoTokenMessage)), None;
    }
    sent := Some(UploadRequest(UploadUrl, accessToken, video.filename, video.content,
                               VideoContentType, caption));
    outcome := UploadResult(provider);
  }
}
