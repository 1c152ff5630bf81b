/** The two token handlers (controllers/auth.go) as orchestration over the token
    service, answering with the response envelope: status code, success flag, error,
    and the issued tokens. Request binding and JSON rendering are not modelled. */
module AuthController {
  import opened Wrappers
  import opened Records
  import Config
  import Time
  import opened TokenService

  const StatusOK: int := 200
  const StatusBadRequest: int := 400

  /** The response data: the issued pair, and the email echoed back by a refresh. */
  datatype AuthData = AuthData(email: Option<string>, tokens: TokenPair)

  datatype Response = Response(statusCode: int, success: bool, message: Option<TokenError>, data: Option<AuthData>)

  /** A handler's response and the token store it leaves behind. */
  datatype Handled = Handled(response: Response, store: TokenStore)

  datatype RefreshRequest = RefreshRequest(token: Credential, email: string)

  /** Go's zero-valued token row, which a failed issuance hands back. */
  const ZeroToken: Token := Token(0, Malformed, "", Time.ZeroTime, false)

  /** Every row is stored under its own id. */
  ghost predicate WellKeyed(store: TokenStore)
  {
    forall id :: id in store ==> store[id].id == id
  }

  /** Issues a pair for `email`: 200 with both tokens on success, 400 with the service
      error otherwise (an access row created before the failure stays stored). */
  function GenerateAccessToken(store: TokenStore, cfg: Config.EnvConfig, email: string, now: int,
                               accessDraw: Draw, refreshDraw: Draw): (h: Handled)
    ensures h.store == GenerateAccessTokens(store, cfg, email, now, accessDraw, refreshDraw).store
    ensures h.response.success <==> h.response.statusCode == StatusOK
    ensures h.response.statusCode == StatusOK || h.response.statusCode == StatusBadRequest
    ensures h.response.success <==> GenerateAccessTokens(store, cfg, email, now, accessDraw, refreshDraw).pair.Ok?
    ensures h.response.success ==>
              && h.response.message.None?
              && h.response.data == Some(AuthData(None, GenerateAccessTokens(store, cfg, email, now, accessDraw, refreshDraw).pair.value))
    ensures !h.response.success ==>
              && h.response.data.None?
              && h.response.message == Some(GenerateAccessTokens(store, cfg, email, now, accessDraw, refreshDraw).pair.error)
  {
    var issued := GenerateAccessTokens(store, cfg, email, now, accessDraw, refreshDraw);
    match issued.pair
    case Err(e) => Handled(Response(StatusBadRequest, false, Some(e), None), issued.store)
    case Ok(pair) => Handled(Response(StatusOK, true, None, Some(AuthData(None, pair))), issued.store)
  }

  /** Exchanges a refresh token for a new pair: verify it as a refresh token, delete its
      row, then issue. A failed verification or deletion answers 400 and changes nothing;
      once the row is deleted the answer is 200 and successful even if issuing failed,
      in which case the pair is two zero-valued tokens. */
  function Refresh(store: TokenStore, cfg: Config.EnvConfig, request: RefreshRequest, now: int,
                   verifyFaults: VerifyFaults, deleteFails: bool, accessDraw: Draw, refreshDraw: Draw): (h: Handled)
    ensures VerifyToken(store, request.token, TokenTypeRefresh, now, verifyFaults).Err? ==>
              h == Handled(Response(StatusBadRequest, false,
                                    Some(VerifyToken(store, request.token, TokenTypeRefresh, now, verifyFaults).error), None),
                           store)
    ensures var consumed := VerifyToken(store, request.token, TokenTypeRefresh, now, verifyFaults);
            consumed.Ok? && DeleteTokenById(store, request.token.claims.subject, deleteFails).Err? ==>
              h == Handled(Response(StatusBadRequest, false,
                                    Some(DeleteTokenById(store, request.token.claims.subject, deleteFails).error), None),
                           store)
    ensures h.response.statusCode == StatusBadRequest ==> h.store == store && !h.response.success && h.response.data.None?
    ensures h.response.statusCode == StatusOK || h.response.statusCode == StatusBadRequest
    ensures var consumed := VerifyToken(store, request.token, TokenTypeRefresh, now, verifyFaults);
            consumed.Ok? && DeleteTokenById(store, request.token.claims.subject, deleteFails).Ok? ==>
              h.response.statusCode == StatusOK
    ensures h.response.statusCode == StatusOK ==>
              var consumed := VerifyToken(store, request.token, TokenTypeRefresh, now, verifyFaults);
              && consumed.Ok?
              && DeleteTokenById(store, request.token.claims.subject, deleteFails).Ok?
              && var issued := GenerateAccessTokens(DeleteTokenById(store, request.token.claims.subject, deleteFails).value,
                                                    cfg, request.email, now, accessDraw, refreshDraw);
                 && h.store == issued.store
                 && h.response.success && h.response.message.None?
                 && h.response.data.Some? && h.response.data.value.email == Some(request.email)
                 && h.response.data.value.tokens
                    == (if issued.pair.Ok? then issued.pair.value else TokenPair(ZeroToken, ZeroToken))
  {
    match VerifyToken(store, request.token, TokenTypeRefresh, now, verifyFaults)
    case Err(e) => Handled(Response(StatusBadRequest, false, Some(e), None), store)
    case Ok(_) =>
      // The row was found by `id = subject`, so the subject is the row's id.
      match DeleteTokenById(store, request.token.claims.subject, deleteFails)
      case Err(e) => Handled(Response(StatusBadRequest, false, Some(e), None), store)
      case Ok(remaining) =>
        var issued := GenerateAccessTokens(remaining, cfg, request.email, now, accessDraw, refreshDraw);
        var tokens := if issued.pair.Ok? then issued.pair.value else TokenPair(ZeroToken, ZeroToken);
        Handled(Response(StatusOK, true, None, Some(AuthData(Some(request.email), tokens))), issued.store)
  }

  /** Issuing, deleting and refreshing keep every row under its own id. */
  lemma RefreshKeepsStoreWellKeyed(store: TokenStore, cfg: Config.EnvConfig, request: RefreshRequest, now: int,
                                   verifyFaults: VerifyFaults, deleteFails: bool, accessDraw: Draw, refreshDraw: Draw)
    requires WellKeyed(store)
    ensures WellKeyed(Refresh(store, cfg, request, now, verifyFaults, deleteFails, accessDraw, refreshDraw).store)
    ensures WellKeyed(GenerateAccessToken(store, cfg, request.email, now, accessDraw, refreshDraw).store)
  {
  }

  /** A refresh token is single-use: after a successful refresh that drew new ids, the
      same token never verifies again. */
  lemma RefreshTokenIsSingleUse(store: TokenStore, cfg: Config.EnvConfig, request: RefreshRequest, now: int,
                                verifyFaults: VerifyFaults, accessDraw: Draw, refreshDraw: Draw,
                                later: int, laterFaults: VerifyFaults)
    requires Refresh(store, cfg, request, now, verifyFaults, false, accessDraw, refreshDraw).response.statusCode == StatusOK
    requires accessDraw.id != request.token.claims.subject && refreshDraw.id != request.token.claims.subject
    ensures VerifyToken(Refresh(store, cfg, request, now, verifyFaults, false, accessDraw, refreshDraw).store,
                        request.token, TokenTypeRefresh, later, laterFaults).Err?
  {
    var h := Refresh(store, cfg, request, now, verifyFaults, false, accessDraw, refreshDraw);
    assert request.token.claims.subject !in h.store;
  }

  /** Once the old token is deleted, a failed issuance, at any of its steps, is still
      reported as a success: status 200, no error, and two zero-valued tokens in place of
      a pair. The old row is gone; at most the new access row was added. */
  lemma RefreshHidesIssuanceFailure(store: TokenStore, cfg: Config.EnvConfig, request: RefreshRequest, now: int,
                                    accessDraw: Draw, refreshDraw: Draw)
    requires VerifyToken(store, request.token, TokenTypeRefresh, now, NoVerifyFaults).Ok?
    requires GenerateAccessTokens(store - {request.token.claims.subject}, cfg, request.email, now,
                                  accessDraw, refreshDraw).pair.Err?
    ensures var h := Refresh(store, cfg, request, now, NoVerifyFaults, false, accessDraw, refreshDraw);
            && h.response == Response(StatusOK, true, None, Some(AuthData(Some(request.email), TokenPair(ZeroToken, ZeroToken))))
            && h.store.Keys - {accessDraw.id} == store.Keys - {request.token.claims.subject, accessDraw.id}
  {
  }

  /** Issue then refresh: the refresh token of a freshly issued pair, presented before
      its expiry grace runs out, is exchanged for a new pair carrying the new ids, and
      the old refresh row is gone. */
  lemma IssueThenRefresh(store: TokenStore, cfg: Config.EnvConfig, email: string, now: int,
                         accessDraw: Draw, refreshDraw: Draw, later: int, nextAccess: Draw, nextRefresh: Draw)
    requires WellKeyed(store)
    requires GenerateAccessToken(store, cfg, email, now, accessDraw, refreshDraw).response.success
    requires later <= RefreshExpiry(cfg, now) + ExpiryGrace
    requires !nextAccess.signFails && !nextAccess.dbFails && !nextRefresh.signFails && !nextRefresh.dbFails
    requires nextAccess.id != nextRefresh.id
    requires nextAccess.id !in store && nextRefresh.id !in store
    requires nextAccess.id !in {accessDraw.id, refreshDraw.id} && nextRefresh.id !in {accessDraw.id, refreshDraw.id}
    ensures var issued := GenerateAccessToken(store, cfg, email, now, accessDraw, refreshDraw);
            var pair := issued.response.data.value.tokens;
            var h := Refresh(issued.store, cfg, RefreshRequest(pair.refresh.credential, email), later,
                             NoVerifyFaults, false, nextAccess, nextRefresh);
            && h.response.statusCode == StatusOK
            && h.response.data.value.tokens.access.id == nextAccess.id
            && h.response.data.value.tokens.refresh.id == nextRefresh.id
            && refreshDraw.id !in h.store
            && accessDraw.id in h.store
  {
    var issued := GenerateAccessToken(store, cfg, email, now, accessDraw, refreshDraw);
    var gen := GenerateAccessTokens(store, cfg, email, now, accessDraw, refreshDraw);
    var pair := gen.pair.value;
    assert issued.response.data.value.tokens == pair;
    assert issued.store == gen.store;
    TypeFilterOrder(TokenTypeRefresh);
    assert VerifyToken(gen.store, pair.refresh.credential, TokenTypeRefresh, later, NoVerifyFaults) == Ok(pair.refresh);
    var remaining := DeleteTokenById(gen.store, refreshDraw.id, false);
    assert remaining.Ok? && remaining.value.Keys == gen.store.Keys - {refreshDraw.id};
    var next := GenerateAccessTokens(remaining.value, cfg, email, later, nextAccess, nextRefresh);
    assert next.pair.Ok?;
  }
}
