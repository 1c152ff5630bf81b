/** The optional payment cache (services/storage.service.go) over an abstract key-value
    store. The one-minute expiry and the transport are not modelled; a failing get or
    set is an explicit flag. */
module Storage {
  import opened Wrappers
  import Config
  import Request

  type Cache = map<string, Request.PaymentResponse>

  const PaymentKeyPrefix: string := "req:cache:payment:"

  /** The cache key of a payment: the fixed prefix followed by the payment id, which
      can be read back from the key. */
  function PaymentCacheKey(paymentId: string): (key: string)
    ensures |key| == |PaymentKeyPrefix| + |paymentId|
    ensures key[..|PaymentKeyPrefix|] == PaymentKeyPrefix
    ensures key[|PaymentKeyPrefix|..] == paymentId
  {
    PaymentKeyPrefix + paymentId
  }

  /** Distinct payments never share a cache entry. */
  lemma PaymentCacheKeyInjective(a: string, b: string)
    ensures PaymentCacheKey(a) == PaymentCacheKey(b) ==> a == b
  {
  }

  /** The reasons a cache read reports: caching switched off, no entry, or the cache
      backend failing. */
  datatype CacheError = RedisDisabled | CacheMiss | CacheUnavailable

  /** A cache read: the details when found, and the error otherwise. */
  datatype CacheRead = CacheRead(details: Option<Request.PaymentResponse>, err: Option<CacheError>)

  /** Stores `details` under the payment's key when caching is on; a failed set is
      dropped silently. */
  function SetPaymentDetails(cfg: Config.EnvConfig, cache: Cache, paymentId: string,
                             details: Request.PaymentResponse, setFails: bool): (c: Cache)
    ensures !cfg.useRedis || setFails ==> c == cache
    ensures cfg.useRedis && !setFails ==> PaymentCacheKey(paymentId) in c && c[PaymentCacheKey(paymentId)] == details
    ensures c.Keys == cache.Keys || c.Keys == cache.Keys + {PaymentCacheKey(paymentId)}
    ensures forall k :: k in cache && k != PaymentCacheKey(paymentId) ==> c[k] == cache[k]
  {
    if !cfg.useRedis then cache
    else if setFails then cache
    else cache[PaymentCacheKey(paymentId) := details]
  }

  /** Reads the payment's entry; found exactly when caching is on, the entry exists
      and the backend answers. Every miss carries an error. */
  function GetPaymentDetailsFromCache(cfg: Config.EnvConfig, cache: Cache, paymentId: string,
                                      getFails: bool): (r: CacheRead)
    ensures !cfg.useRedis ==> r == CacheRead(None, Some(RedisDisabled))
    ensures r.details.Some? <==> cfg.useRedis && !getFails && PaymentCacheKey(paymentId) in cache
    ensures r.details.Some? ==> r.err.None? && r.details.value == cache[PaymentCacheKey(paymentId)]
    ensures r.details.None? ==> r.err.Some?
  {
    if !cfg.useRedis then CacheRead(None, Some(RedisDisabled))
    else if getFails then CacheRead(None, Some(CacheUnavailable))
    else if PaymentCacheKey(paymentId) !in cache then CacheRead(None, Some(CacheMiss))
    else CacheRead(Some(cache[PaymentCacheKey(paymentId)]), None)
  }

  /** A successful set is read back by the next get of the same payment, and leaves
      every other payment's reading as it was. */
  lemma SetThenGet(cfg: Config.EnvConfig, cache: Cache, paymentId: string, other: string,
                   details: Request.PaymentResponse, getFails: bool)
    requires cfg.useRedis
    ensures GetPaymentDetailsFromCache(cfg, SetPaymentDetails(cfg, cache, paymentId, details, false), paymentId, false)
            == CacheRead(Some(details), None)
    ensures other != paymentId ==>
              GetPaymentDetailsFromCache(cfg, SetPaymentDetails(cfg, cache, paymentId, details, false), other, getFails)
              == GetPaymentDetailsFromCache(cfg, cache, other, getFails)
  {
    if other != paymentId {
      PaymentCacheKeyInjective(paymentId, other);
    }
  }
}
