/** The token lifecycle end to end: issued tokens verify until ten seconds after their
    expiry and only for their own type; expired tokens and deleted tokens do not verify. */
module TokenProperties {
  import opened Wrappers
  import opened Records
  import Config
  import opened TokenService

  /** Each token of a freshly issued pair verifies for its own type at any moment up to
      ten seconds past its expiry, and is refused for the other type. */
  lemma IssuedTokensVerify(store: TokenStore, cfg: Config.EnvConfig, email: string, now: int,
                           accessDraw: Draw, refreshDraw: Draw, later: int)
    requires GenerateAccessTokens(store, cfg, email, now, accessDraw, refreshDraw).pair.Ok?
    ensures var r := GenerateAccessTokens(store, cfg, email, now, accessDraw, refreshDraw);
            var p := r.pair.value;
            && (later <= p.access.expiresAt + ExpiryGrace ==>
                  VerifyToken(r.store, p.access.credential, TokenTypeAccess, later, NoVerifyFaults) == Ok(p.access))
            && (later <= p.refresh.expiresAt + ExpiryGrace ==>
                  VerifyToken(r.store, p.refresh.credential, TokenTypeRefresh, later, NoVerifyFaults) == Ok(p.refresh))
            && VerifyToken(r.store, p.access.credential, TokenTypeRefresh, later, NoVerifyFaults) == Err(NotValidToken)
            && VerifyToken(r.store, p.refresh.credential, TokenTypeAccess, later, NoVerifyFaults) == Err(NotValidToken)
  {
    TypeFilterOrder(TokenTypeAccess);
    TypeFilterOrder(TokenTypeRefresh);
  }

  /** Past the grace window a token this service signed is refused as expired, whatever
      the store holds. */
  lemma ExpiredTokenRefused(store: TokenStore, token: Token, later: int)
    requires token.credential.Signed?
    requires later - token.credential.claims.expiresAt > ExpiryGrace
    ensures VerifyToken(store, token.credential, token.credential.claims.tokenType, later, NoVerifyFaults) == Err(TokenExpired)
  {
  }

  /** Once its row is deleted, a token that would otherwise verify is refused as not found. */
  lemma DeletedTokenNotFound(store: TokenStore, credential: Credential, tokenType: string, now: int)
    requires VerifyToken(store, credential, tokenType, now, NoVerifyFaults).Ok?
    ensures var id := credential.claims.subject;
            && DeleteTokenById(store, id, false).Ok?
            && VerifyToken(DeleteTokenById(store, id, false).value, credential, tokenType, now, NoVerifyFaults)
               == Err(CannotFindToken)
  {
  }

  /** Blacklisting a stored row refuses every token pointing at it. */
  lemma BlacklistedTokenNotFound(store: TokenStore, credential: Credential, tokenType: string, now: int)
    requires credential.Signed? && credential.claims.subject in store
    requires store[credential.claims.subject].blacklisted
    ensures VerifyToken(store, credential, tokenType, now, NoVerifyFaults).Err?
  {
  }
}
