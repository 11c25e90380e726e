/** Whole sessions against a fresh data directory: what a sequence of store operations or
    handler calls yields, stated from their inputs alone. */
module Sessions {
  import opened PyJson
  import opened Http
  import opened TikTok

  /** Reads before any write find nothing; a write replaces its record whole and leaves the
      other record alone. */
  method LastWriteWins(x: Json, y: Json, z: Json)
    returns (tokensBefore: Json, userBefore: Json, tokensAfter: Json, userAfter: Json)
    ensures tokensBefore == JNull && userBefore == JNull
    ensures tokensAfter == z && userAfter == y
  {
    var store := new Store();
    tokensBefore := store.LoadTokens();
    userBefore := store.LoadUser();
    store.SaveTokens(x);
    var fault := store.SaveUser(y);
    store.SaveTokens(z);
    tokensAfter := store.LoadTokens();
    userAfter := store.LoadUser();
  }

  /** On a fresh install the user record cannot be written before the token record, since
      only save_tokens creates the directory. */
  method UserBeforeTokens(y: Json) returns (fault: Option<Exc>, userAfter: Json)
    ensures fault == Some(FileNotFound) && userAfter == JNull
  {
    var store := new Store();
    fault := store.SaveUser(y);
    userAfter := store.LoadUser();
  }

  /** An upload before any callback is refused as unconfirmed and sends nothing. */
  method UploadBeforeLinking(video: Video, caption: string, provider: Transport)
    returns (outcome: Py<Json>, sent: Option<UploadRequest>)
    ensures outcome == Ok(ErrorReply(NoUserMessage)) && sent == None
  {
    var store := new Store();
    outcome, sent := UploadVideo(store, video, caption, provider);
  }

  /** A callback on a fresh install, then an upload. A confirmed account uploads with exactly
      the token the exchange returned, provided that token is truthy; a profile naming some
      other account is still stored, and the upload is then locked. */
  method LinkThenUpload(settings: Settings, code: string, exchange: Transport, profile: Transport,
                        video: Video, caption: string, provider: Transport)
    returns (linked: Py<Json>, outcome: Py<Json>, sent: Option<UploadRequest>)
    ensures ExchangedTokens(exchange).Raise? ==>
              linked.Raise? && outcome == Ok(ErrorReply(NoUserMessage)) && sent == None
    ensures ExchangedTokens(exchange).Ok? && TokenField(ExchangedTokens(exchange).value).Ok?
            && FetchedProfile(profile).Ok? ==>
              var token := TokenField(ExchangedTokens(exchange).value).value;
              var info := FetchedProfile(profile).value;
              && linked == CallbackVerdict(info)
              && (IsAuthorizedProfile(info) ==>
                    && linked == Ok(CallbackReply("ok", ConfirmedMessage, info))
                    && (sent.Some? <==> Truthy(token))
                    && (sent.Some? ==>
                          sent.value == UploadRequest(UploadUrl, token, video.filename, video.content,
                                                      VideoContentType, caption)
                          && outcome == UploadResult(provider))
                    && (!Truthy(token) ==> outcome == Ok(ErrorReply(NoTokenMessage))))
              && (Truthy(info) && UsernameOf(info).Ok? && !IsAuthorizedProfile(info) ==>
                    && linked == Ok(CallbackReply("error", UnauthorizedMessage, info))
                    && outcome == Ok(ErrorReply(LockedMessage)) && sent == None)
  {
    var store := new Store();
    var tokenRequest, profileRequest;
    linked, tokenRequest, profileRequest := TikTokCallback(store, settings, code, None, exchange, profile);
    outcome, sent := UploadVideo(store, video, caption, provider);
  }
}
