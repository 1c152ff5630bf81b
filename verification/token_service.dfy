/** The token lifecycle (services/token.service.go): issue signed tokens and store a row
    per token, verify a presented token (claim type, expiry with a ten-second grace,
    stored row), and delete rows by id. Signing is an abstract `Signed(claims)` value;
    signing, parsing and the database each fail through an explicit flag, and the
    random id is supplied by the caller. */
module TokenService {
  import opened Wrappers
  import opened Records
  import Config
  import Gorm
  import Time

  /** The tokens table, keyed by id. */
  type TokenStore = map<int, Token>

  datatype TokenError =
    | NotValidToken
    | TokenExpired
    | CannotFindToken
    | CannotCreateAccessToken
    | CannotSaveToken
    | DbError(cause: Gorm.DbError)
  {
    /** The error text the handlers pass back. A database error's text is the driver's
        and is not modelled. */
    function Message(): string
    {
      match this
      case NotValidToken => "not valid token"
      case TokenExpired => "token is expired"
      case CannotFindToken => "cannot find token"
      case CannotCreateAccessToken => "cannot create access token"
      case CannotSaveToken => "Cannot save access token to db"
      case DbError(_) => ""
    }
  }

  /** What the environment supplies to one token creation: the random id, and whether
      signing and the insert fail. */
  datatype Draw = Draw(id: int, signFails: bool, dbFails: bool)

  /** The outcome of one creation and the store it leaves behind. */
  datatype Created = Created(token: Result<Token, TokenError>, store: TokenStore)

  /** `a < b` in lexicographic order of characters (the store's `type >= ?` compares strings). */
  predicate LexLess(a: string, b: string)
    decreases |a|
  {
    |b| > 0 && (|a| == 0 || a[0] < b[0] || (a[0] == b[0] && LexLess(a[1..], b[1..])))
  }

  predicate TypeAtLeast(rowType: string, required: string)
  {
    !LexLess(rowType, required)
  }

  lemma {:induction false} LexLessIrreflexive(a: string)
    ensures !LexLess(a, a)
    decreases |a|
  {
    if |a| > 0 {
      LexLessIrreflexive(a[1..]);
    }
  }

  /** A row whose type equals the required one satisfies the store's type filter, and
      a refresh row also satisfies an access filter, but not the other way round. */
  lemma TypeFilterOrder(t: string)
    ensures TypeAtLeast(t, t)
    ensures TypeAtLeast(TokenTypeRefresh, TokenTypeAccess)
    ensures !TypeAtLeast(TokenTypeAccess, TokenTypeRefresh)
  {
    LexLessIrreflexive(t);
    assert TokenTypeRefresh[0] == 'r' && TokenTypeAccess[0] == 'a';
  }

  /** Signs claims for `email` and stores the row. A signing failure stores nothing; an
      insert failure (a database fault, or an id already taken) stores nothing either. */
  function CreateToken(store: TokenStore, email: string, tokenType: string, expiresAt: int,
                       now: int, draw: Draw): (c: Created)
    ensures draw.signFails ==> c == Created(Err(CannotCreateAccessToken), store)
    ensures !draw.signFails && (draw.dbFails || draw.id in store) ==> c == Created(Err(CannotSaveToken), store)
    ensures c.token.Ok? <==> !draw.signFails && !draw.dbFails && draw.id !in store
    ensures c.token.Ok? ==>
              var t := c.token.value;
              && t.id == draw.id && t.tokenType == tokenType && t.expiresAt == expiresAt && !t.blacklisted
              && t.credential == Signed(Claims(email, tokenType, now, expiresAt, draw.id))
              && c.store.Keys == store.Keys + {draw.id}
              && c.store[draw.id] == t
              && forall id :: id in store ==> c.store[id] == store[id]
  {
    if draw.signFails then Created(Err(CannotCreateAccessToken), store)
    else
      var t := Token(draw.id, Signed(Claims(email, tokenType, now, expiresAt, draw.id)), tokenType, expiresAt, false);
      if draw.dbFails || draw.id in store then Created(Err(CannotSaveToken), store)
      else Created(Ok(t), store[draw.id := t])
  }

  /** Removes the row with `id`; a missing row or a failing database reports the error
      and removes nothing. */
  function DeleteTokenById(store: TokenStore, id: int, dbFails: bool): (r: Result<TokenStore, TokenError>)
    ensures dbFails ==> r == Err(DbError(Gorm.ConnectionError))
    ensures !dbFails && id !in store ==> r == Err(DbError(Gorm.RecordNotFound))
    ensures r.Ok? ==> id in store && r.value.Keys == store.Keys - {id}
    ensures r.Ok? ==> forall k :: k in r.value ==> r.value[k] == store[k]
    ensures !dbFails && id in store ==> r == Ok(store - {id})
  {
    if dbFails then Err(DbError(Gorm.ConnectionError))
    else if id !in store then Err(DbError(Gorm.RecordNotFound))
    else Ok(store - {id})
  }

  datatype TokenPair = TokenPair(access: Token, refresh: Token)

  /** The outcome of issuing a pair and the store it leaves behind. */
  datatype Issued = Issued(pair: Result<TokenPair, TokenError>, store: TokenStore)

  function AccessExpiry(cfg: Config.EnvConfig, now: int): int
  {
    now + cfg.jwtAccessExpirationMinutes * Time.Minute
  }

  function RefreshExpiry(cfg: Config.EnvConfig, now: int): int
  {
    now + cfg.jwtRefreshExpirationDays * 24 * Time.Hour
  }

  /** Issues an access token, then a refresh token. A failed access creation stores
      nothing and skips the refresh; a failed refresh creation reports the error but
      leaves the access row stored. */
  function GenerateAccessTokens(store: TokenStore, cfg: Config.EnvConfig, email: string, now: int,
                                accessDraw: Draw, refreshDraw: Draw): (r: Issued)
    ensures CreateToken(store, email, TokenTypeAccess, AccessExpiry(cfg, now), now, accessDraw).token.Err? ==>
              r == Issued(Err(CreateToken(store, email, TokenTypeAccess, AccessExpiry(cfg, now), now, accessDraw).token.error), store)
    ensures r.pair.Err? && CreateToken(store, email, TokenTypeAccess, AccessExpiry(cfg, now), now, accessDraw).token.Ok? ==>
              r.store == CreateToken(store, email, TokenTypeAccess, AccessExpiry(cfg, now), now, accessDraw).store
    ensures r.pair.Ok? ==>
              var p := r.pair.value;
              && p.access.tokenType == TokenTypeAccess && p.refresh.tokenType == TokenTypeRefresh
              && p.access.expiresAt == now + cfg.jwtAccessExpirationMinutes * 60 * Time.Second
              && p.refresh.expiresAt == now + cfg.jwtRefreshExpirationDays * 86400 * Time.Second
              && p.access.id == accessDraw.id && p.refresh.id == refreshDraw.id
              && r.store.Keys == store.Keys + {accessDraw.id, refreshDraw.id}
              && r.store[accessDraw.id] == p.access && r.store[refreshDraw.id] == p.refresh
              && forall id :: id in store ==> r.store[id] == store[id]
    ensures r.pair.Ok? ==>
              && !r.pair.value.access.blacklisted && !r.pair.value.refresh.blacklisted
              && r.pair.value.access.credential
                 == Signed(Claims(email, TokenTypeAccess, now, AccessExpiry(cfg, now), accessDraw.id))
              && r.pair.value.refresh.credential
                 == Signed(Claims(email, TokenTypeRefresh, now, RefreshExpiry(cfg, now), refreshDraw.id))
    ensures var a := CreateToken(store, email, TokenTypeAccess, AccessExpiry(cfg, now), now, accessDraw);
            a.token.Ok? ==>
              var f := CreateToken(a.store, email, TokenTypeRefresh, RefreshExpiry(cfg, now), now, refreshDraw);
              && (f.token.Err? ==> r == Issued(Err(f.token.error), a.store))
              && (f.token.Ok? ==> r.pair.Ok?)
  {
    var access := CreateToken(store, email, TokenTypeAccess, AccessExpiry(cfg, now), now, accessDraw);
    if access.token.Err? then Issued(Err(access.token.error), store)
    else
      var refresh := CreateToken(access.store, email, TokenTypeRefresh, RefreshExpiry(cfg, now), now, refreshDraw);
      if refresh.token.Err? then Issued(Err(refresh.token.error), access.store)
      else Issued(Ok(TokenPair(access.token.value, refresh.token.value)), refresh.store)
  }

  const ExpiryGrace: int := 10 * Time.Second

  /** Which steps of one verification fail: parsing the token (a bad signature, or the
      parser's own refusal), and the store lookup (a database fault). */
  datatype VerifyFaults = VerifyFaults(parseFails: bool, lookupFails: bool)

  const NoVerifyFaults: VerifyFaults := VerifyFaults(false, false)

  /** Verifies a presented token for `tokenType`: its claims must parse and name that
      type, it must not be more than ten seconds past its expiry, and the store must
      hold a non-blacklisted row with its subject as id and a type at least `tokenType`
      (a failing lookup counts as not found). The store is only read. */
  function VerifyToken(store: TokenStore, credential: Credential, tokenType: string, now: int,
                       faults: VerifyFaults): (r: Result<Token, TokenError>)
    ensures r == Err(NotValidToken) <==>
              credential.Malformed? || faults.parseFails || credential.claims.tokenType != tokenType
    ensures r == Err(TokenExpired) <==>
              && credential.Signed? && !faults.parseFails && credential.claims.tokenType == tokenType
              && now - credential.claims.expiresAt > ExpiryGrace
    ensures r.Ok? ==>
              && credential.Signed? && credential.claims.tokenType == tokenType
              && now <= credential.claims.expiresAt + ExpiryGrace
              && !faults.lookupFails && credential.claims.subject in store
              && r.value == store[credential.claims.subject]
              && !r.value.blacklisted && TypeAtLeast(r.value.tokenType, tokenType)
    ensures r.Err? ==> r.error in {NotValidToken, TokenExpired, CannotFindToken}
    ensures && credential.Signed? && !faults.parseFails && credential.claims.tokenType == tokenType
            && now - credential.claims.expiresAt <= ExpiryGrace
            && !faults.lookupFails && credential.claims.subject in store
            && !store[credential.claims.subject].blacklisted
            && TypeAtLeast(store[credential.claims.subject].tokenType, tokenType)
            ==> r == Ok(store[credential.claims.subject])
  {
    if credential.Malformed? || faults.parseFails || credential.claims.tokenType != tokenType then Err(NotValidToken)
    else if now - credential.claims.expiresAt > ExpiryGrace then Err(TokenExpired)
    else
      var id := credential.claims.subject;
      if !faults.lookupFails && id in store && TypeAtLeast(store[id].tokenType, tokenType) && !store[id].blacklisted then Ok(store[id])
      else Err(CannotFindToken)
  }
}
