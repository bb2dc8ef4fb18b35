/**
 * The process-wide in-memory cache of the market-data service (`memoryCache`,
 * `cacheData`, `getCachedData`) and the USDT→INR conversion-rate lookup built
 * on it (`fetchUSDTINRPrice`).
 *
 * The cache holds two kinds of values: the conversion rate, under the key
 * "USDT_INR_PRICE", and logo batches, under "COINGECKO_BATCH_…" keys.
 * The reply of the rate request is a parameter: `None` when the request fails.
 */
module MemoryCache {
  import opened Common

  datatype CacheValue = Rate(rate: real) | LogoBatch(logos: map<string, string>)

  /** JavaScript truthiness of a stored value: a rate of 0 is falsy, an object is always truthy. */
  predicate Truthy(v: CacheValue) {
    match v
    case Rate(r) => r != 0.0
    case LogoBatch(_) => true
  }

  const RateKey: string := "USDT_INR_PRICE"

  /** The approximate rate used when the rate request fails. */
  const FallbackRate: real := 83.0

  /** Only a rate is ever stored under the rate key, and a rate is stored under no other key. */
  predicate WellTyped(entries: map<string, CacheValue>) {
    forall k :: k in entries ==> (entries[k].Rate? <==> k == RateKey)
  }

  predicate RateSlotOk(entries: map<string, CacheValue>) {
    RateKey in entries ==> entries[RateKey].Rate?
  }

  /** `getCachedData`: `memoryCache[key] || null`. */
  function Lookup(entries: map<string, CacheValue>, key: string): (r: Option<CacheValue>)
    ensures r.Some? <==> key in entries && Truthy(entries[key])
    ensures r.Some? ==> r.value == entries[key] && Truthy(r.value)
  {
    if key in entries && Truthy(entries[key]) then Some(entries[key]) else None
  }

  /** A value stored with `cacheData` is read back iff it is truthy; no other key is affected. */
  lemma PutThenLookup(entries: map<string, CacheValue>, key: string, value: CacheValue, other: string)
    requires other != key
    ensures Lookup(entries[key := value], key) == (if Truthy(value) then Some(value) else None)
    ensures Lookup(entries[key := value], other) == Lookup(entries, other)
  {
  }

  /**
   * The rate `fetchUSDTINRPrice` returns: the cached rate when one is cached and
   * truthy, else the reply of the request, else the fallback 83.
   */
  function ResolvedRate(entries: map<string, CacheValue>, quote: Option<real>): real
    requires RateSlotOk(entries)
  {
    match Lookup(entries, RateKey)
    case Some(v) => v.rate
    case None => if quote.Some? then quote.value else FallbackRate
  }

  /** The cache after `fetchUSDTINRPrice`: unchanged on a cache hit, else holding the returned rate. */
  function RateEntries(entries: map<string, CacheValue>, quote: Option<real>): map<string, CacheValue>
    requires RateSlotOk(entries)
  {
    if Lookup(entries, RateKey).Some? then entries
    else entries[RateKey := Rate(ResolvedRate(entries, quote))]
  }

  /** A cached rate is returned whatever the request would have answered, and the cache is left alone. */
  lemma CachedRateIsReused(entries: map<string, CacheValue>, quote: Option<real>, r: real)
    requires RateKey in entries && entries[RateKey] == Rate(r) && r != 0.0
    ensures ResolvedRate(entries, quote) == r
    ensures RateEntries(entries, quote) == entries
  {
  }

  /**
   * When the request fails the fallback 83 is returned and cached, so every
   * later lookup yields 83 too, whatever its own request would answer.
   */
  lemma FallbackIsSticky(entries: map<string, CacheValue>, later: Option<real>)
    requires RateSlotOk(entries) && Lookup(entries, RateKey).None?
    ensures ResolvedRate(entries, None) == FallbackRate
    ensures RateSlotOk(RateEntries(entries, None))
    ensures ResolvedRate(RateEntries(entries, None), later) == FallbackRate
    ensures RateEntries(RateEntries(entries, None), later) == RateEntries(entries, None)
  {
  }

  /** Repeating a lookup with the same reply yields the same rate and leaves the cache as the first lookup did. */
  lemma RateLookupStable(entries: map<string, CacheValue>, quote: Option<real>)
    requires RateSlotOk(entries)
    ensures RateSlotOk(RateEntries(entries, quote))
    ensures ResolvedRate(RateEntries(entries, quote), quote) == ResolvedRate(entries, quote)
    ensures RateEntries(RateEntries(entries, quote), quote) == RateEntries(entries, quote)
  {
  }

  /**
   * Once a lookup has returned a non-zero rate, every later lookup returns that
   * rate and writes nothing, whatever its own request would answer.
   */
  lemma TruthyRateSettles(entries: map<string, CacheValue>, quote: Option<real>, later: Option<real>)
    requires RateSlotOk(entries) && ResolvedRate(entries, quote) != 0.0
    ensures RateSlotOk(RateEntries(entries, quote))
    ensures ResolvedRate(RateEntries(entries, quote), later) == ResolvedRate(entries, quote)
    ensures RateEntries(RateEntries(entries, quote), later) == RateEntries(entries, quote)
  {
  }

  /** A reply of 0 is cached but falsy, so the next lookup asks again and returns its own reply. */
  lemma ZeroRateRefetched(entries: map<string, CacheValue>, later: Option<real>)
    requires RateSlotOk(entries) && Lookup(entries, RateKey).None?
    ensures ResolvedRate(entries, Some(0.0)) == 0.0
    ensures RateSlotOk(RateEntries(entries, Some(0.0)))
    ensures ResolvedRate(RateEntries(entries, Some(0.0)), later) == ResolvedRate(entries, later)
  {
  }

  /** Writing any key other than the rate key does not change the rate lookup. */
  lemma RateIgnoresOtherKeys(entries: map<string, CacheValue>, key: string, value: CacheValue, quote: Option<real>)
    requires RateSlotOk(entries) && key != RateKey
    ensures RateSlotOk(entries[key := value])
    ensures ResolvedRate(entries[key := value], quote) == ResolvedRate(entries, quote)
  {
    assert Lookup(entries[key := value], RateKey) == Lookup(entries, RateKey);
  }

  class Cache {
    var entries: map<string, CacheValue>

    ghost predicate Valid()
      reads this
    {
      WellTyped(entries)
    }

    constructor ()
      ensures Valid() && entries == map[]
    {
      entries := map[];
    }

    /** `cacheData(key, data)`. */
    method Put(key: string, value: CacheValue)
      requires Valid() && (value.Rate? <==> key == RateKey)
      modifies this
      ensures Valid()
      ensures entries == old(entries)[key := value]
    {
      entries := entries[key := value];
    }

    /** `getCachedData(key)`. */
    function Get(key: string): Option<CacheValue>
      reads this
    {
      Lookup(entries, key)
    }

    /** `fetchUSDTINRPrice`: never fails; falls back to 83 and caches whatever it returns. */
    method UsdtInrRate(quote: Option<real>) returns (rate: real)
      requires Valid()
      modifies this
      ensures Valid()
      ensures rate == ResolvedRate(old(entries), quote)
      ensures entries == RateEntries(old(entries), quote)
    {
      var cached := Get(RateKey);
      if cached.Some? {
        return cached.value.rate;
      }
      match quote {
        case Some(price) =>
          Put(RateKey, Rate(price));
          rate := price;
        case None =>
          Put(RateKey, Rate(FallbackRate));
          rate := FallbackRate;
      }
    }
  }
}
