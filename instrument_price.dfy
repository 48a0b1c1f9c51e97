/**
 * The price ledger and cache (backend/lambdas/shared/instrumentPrice.ts).
 * Every upstream fetch is appended to the instrument's partition under
 * TIMESTAMP#<ms>; the newest entry doubles as a five-second cache, and the
 * resolver looks up later entries to settle a guess.
 */
module InstrumentPrice {
  import opened Wrappers
  import opened Domain
  import opened Table

  /** Age in milliseconds below which the newest ledger entry answers a price request. */
  const CacheTtlMs := 5000
  /** Lifetime of a ledger entry: seven days, in seconds. */
  const RetentionSeconds := 7 * 24 * 60 * 60
  const PriceSource := "coingecko"

  /** The `ttl` attribute: the entry's second, floored, plus seven days. */
  function ExpiresAt(timestampMs: int): (ttl: int)
    ensures (ttl - RetentionSeconds) * 1000 <= timestampMs < (ttl - RetentionSeconds) * 1000 + 1000
  {
    Seconds(timestampMs) + RetentionSeconds
  }

  function NewObservation(price: int, timestampMs: int): (o: Observation)
    ensures o.price == price && o.timestamp == timestampMs && o.source == PriceSource
    ensures o.ttl == ExpiresAt(timestampMs)
  {
    Observation(price, timestampMs, PriceSource, ExpiresAt(timestampMs))
  }

  /** The table after storePrice's Put. */
  function WithObservation(t: Table, instrument: string, price: int, timestampMs: int): (r: Table)
    ensures r.Keys == t.Keys + {PriceKey(instrument, timestampMs)}
    ensures forall k :: k in t && k != PriceKey(instrument, timestampMs) ==> r[k] == t[k]
    ensures PricePartition(r, instrument) == PricePartition(t, instrument)[timestampMs := NewObservation(price, timestampMs)]
  {
    PutPricePartition(t, instrument, timestampMs, NewObservation(price, timestampMs));
    t[PriceKey(instrument, timestampMs) := PriceItem(NewObservation(price, timestampMs))]
  }

  /** A Put on a ledger key changes that instrument's partition at that key only. */
  lemma PutPricePartition(t: Table, instrument: string, timestampMs: int, o: Observation)
    ensures PricePartition(t[PriceKey(instrument, timestampMs) := PriceItem(o)], instrument)
         == PricePartition(t, instrument)[timestampMs := o]
  {
    var a := PricePartition(t[PriceKey(instrument, timestampMs) := PriceItem(o)], instrument);
    var b := PricePartition(t, instrument)[timestampMs := o];
    assert a.Keys == b.Keys by {
      forall ts ensures ts in a <==> ts in b {
        assert PriceKey(instrument, ts) == PriceKey(instrument, timestampMs) <==> ts == timestampMs;
      }
    }

  }

  /** storePrice: a failed write is logged and swallowed. */
  method StorePrice(store: Store, instrument: string, price: int, env: Env)
    modifies store
    ensures CacheWriteCall in env.failing ==> store.items == old(store.items)
    ensures CacheWriteCall !in env.failing ==> store.items == WithObservation(old(store.items), instrument, price, env.nowMs)
  {
    if CacheWriteCall !in env.failing {
      store.items := store.items[PriceKey(instrument, env.nowMs) := PriceItem(NewObservation(price, env.nowMs))];
    }
  }

  datatype Cached = Cached(price: int, timestamp: int)

  /**
   * getCachedPrice: reads the newest entry only (Limit 1, newest first) and
   * serves it when it is less than CacheTtlMs old. A read error is a miss.
   */
  function GetCachedPrice(t: Table, instrument: string, env: Env): (r: Option<Cached>)
    ensures var part := PricePartition(t, instrument);
      r.Some? <==> CacheReadCall !in env.failing && part.Keys != {} && env.nowMs - part[Latest(part)].timestamp < CacheTtlMs
    ensures var part := PricePartition(t, instrument);
      r.Some? ==> part.Keys != {} && r.value == Cached(part[Latest(part)].price, part[Latest(part)].timestamp)
  {
    var part := PricePartition(t, instrument);
    if CacheReadCall in env.failing || part.Keys == {} then None
    else
      var newest := part[Latest(part)];
      if env.nowMs - newest.timestamp < CacheTtlMs then Some(Cached(newest.price, newest.timestamp)) else None
  }

  /**
   * The price getCurrentInstrumentPrice returns: the cached price on a hit,
   * otherwise the upstream price. Only an upstream failure is an error; a
   * failed cache read or write never is.
   */
  function CurrentPrice(t: Table, instrument: string, env: Env): (r: Result<int, Error>)
    ensures r.Err? <==> GetCachedPrice(t, instrument, env).None? && PriceFetchCall in env.failing
    ensures r.Err? ==> r.error == Failed(PriceFetchCall)
    ensures r.Ok? && GetCachedPrice(t, instrument, env).None? ==> r.value == env.upstreamPrice
  {
    match GetCachedPrice(t, instrument, env)
    case Some(hit) => Ok(hit.price)
    case None => if PriceFetchCall in env.failing then Err(Failed(PriceFetchCall)) else Ok(env.upstreamPrice)
  }

  /** The table after getCurrentInstrumentPrice: a successful fetch is stored. */
  function AfterCurrentPrice(t: Table, instrument: string, env: Env): (r: Table)
    ensures r.Keys <= t.Keys + {PriceKey(instrument, env.nowMs)}
    ensures GetCachedPrice(t, instrument, env).Some? || PriceFetchCall in env.failing || CacheWriteCall in env.failing ==> r == t
  {
    if GetCachedPrice(t, instrument, env).None? && PriceFetchCall !in env.failing && CacheWriteCall !in env.failing then
      WithObservation(t, instrument, env.upstreamPrice, env.nowMs)
    else t
  }

  /** A price request writes to the ledger only: every user's guesses stay as they were. */
  lemma CurrentPriceKeepsGuesses(t: Table, instrument: string, env: Env, userId: string)
    ensures GuessPartition(AfterCurrentPrice(t, instrument, env), userId) == GuessPartition(t, userId)
  {
    if GetCachedPrice(t, instrument, env).None? && PriceFetchCall !in env.failing && CacheWriteCall !in env.failing {
      PutPriceKeepsGuesses(t, instrument, env.nowMs, NewObservation(env.upstreamPrice, env.nowMs), userId);
    }
  }

  method GetCurrentInstrumentPrice(store: Store, instrument: string, env: Env) returns (r: Result<int, Error>)
    modifies store
    ensures r == CurrentPrice(old(store.items), instrument, env)
    ensures store.items == AfterCurrentPrice(old(store.items), instrument, env)
  {
    var cached := GetCachedPrice(store.items, instrument, env);
    if cached.Some? {
      return Ok(cached.value.price);
    }
    if PriceFetchCall in env.failing {
      return Err(Failed(PriceFetchCall));
    }
    var price := env.upstreamPrice;
    StorePrice(store, instrument, price, env);
    r := Ok(price);
  }

  /** A cache hit answers with the cached price and writes nothing. */
  lemma CacheHitWritesNothing(t: Table, instrument: string, env: Env)
    requires GetCachedPrice(t, instrument, env).Some?
    ensures CurrentPrice(t, instrument, env) == Ok(GetCachedPrice(t, instrument, env).value.price)
    ensures AfterCurrentPrice(t, instrument, env) == t
  {
  }

  /** A miss whose fetch and write succeed appends exactly one ledger entry, stamped now. */
  lemma MissAppendsOneEntry(t: Table, instrument: string, env: Env)
    requires GetCachedPrice(t, instrument, env).None?
    requires PriceFetchCall !in env.failing && CacheWriteCall !in env.failing
    ensures PricePartition(AfterCurrentPrice(t, instrument, env), instrument)
         == PricePartition(t, instrument)[env.nowMs := NewObservation(env.upstreamPrice, env.nowMs)]
    ensures forall k :: k in t && k.pk != InstrumentPK(instrument) ==> AfterCurrentPrice(t, instrument, env)[k] == t[k]
  {
  }

  /**
   * The cache does its job: once a fetch has been stored, a request for the
   * same instrument less than CacheTtlMs later is served from the table with
   * the same price, provided no entry stamped later exists.
   */
  lemma FilledCacheServesWithinTtl(t: Table, instrument: string, env: Env, later: Env)
    requires GetCachedPrice(t, instrument, env).None?
    requires PriceFetchCall !in env.failing && CacheWriteCall !in env.failing
    requires forall ts :: ts in PricePartition(t, instrument) ==> ts <= env.nowMs
    requires env.nowMs <= later.nowMs < env.nowMs + CacheTtlMs
    requires CacheReadCall !in later.failing
    ensures CurrentPrice(AfterCurrentPrice(t, instrument, env), instrument, later) == Ok(env.upstreamPrice)
    ensures AfterCurrentPrice(AfterCurrentPrice(t, instrument, env), instrument, later) == AfterCurrentPrice(t, instrument, env)
  {
    var t' := AfterCurrentPrice(t, instrument, env);
    StoredFetchIsNewest(t, instrument, env);
    assert GetCachedPrice(t', instrument, later) == Some(Cached(env.upstreamPrice, env.nowMs));
    CacheHitWritesNothing(t', instrument, later);
  }

  /** A stored fetch stamped no earlier than every entry becomes the newest entry. */
  lemma StoredFetchIsNewest(t: Table, instrument: string, env: Env)
    requires GetCachedPrice(t, instrument, env).None?
    requires PriceFetchCall !in env.failing && CacheWriteCall !in env.failing
    requires forall ts :: ts in PricePartition(t, instrument) ==> ts <= env.nowMs
    ensures var part' := PricePartition(AfterCurrentPrice(t, instrument, env), instrument);
      part'.Keys != {} && Latest(part') == env.nowMs && part'[env.nowMs] == NewObservation(env.upstreamPrice, env.nowMs)
  {
    var part' := PricePartition(AfterCurrentPrice(t, instrument, env), instrument);
    assert part' == PricePartition(t, instrument)[env.nowMs := NewObservation(env.upstreamPrice, env.nowMs)];
  }

  /**
   * getPriceAfter: the price of the oldest entry stamped strictly after
   * `startTime`, or None when there is none or the query fails.
   */
  function GetPriceAfter(t: Table, instrument: string, startTime: int, env: Env): (r: Option<int>)
    ensures var later := After(PricePartition(t, instrument), startTime);
      r.Some? <==> LedgerQueryCall !in env.failing && later.Keys != {}
    ensures var later := After(PricePartition(t, instrument), startTime);
      r.Some? ==> later.Keys != {} && r.value == later[Earliest(later)].price
  {
    var later := After(PricePartition(t, instrument), startTime);
    if LedgerQueryCall in env.failing || later.Keys == {} then None
    else Some(later[Earliest(later)].price)
  }

  /**
   * findDifferentPriceAfter: a Query over the entries stamped after
   * `startTime`, oldest first, Limit 1, filtered on `price <> reference`.
   * A query error reads as "none found".
   */
  function FindDifferentPriceAfter(t: Table, instrument: string, startTime: int, reference: int, env: Env): (r: Option<int>)
    ensures r.Some? ==> r.value != reference
    ensures r.Some? ==> exists ts :: ts in PricePartition(t, instrument) && ts > startTime && PricePartition(t, instrument)[ts].price == r.value
  {
    if LedgerQueryCall in env.failing then None
    else
      var later := After(PricePartition(t, instrument), startTime);
      var keys := QueryKeys(later, true, 1, (o: Observation) => o.price != reference);
      if keys == [] then None else Some(later[keys[0]].price)
  }

  /**
   * Because the Limit applies before the filter, only the oldest later entry
   * is ever inspected: the lookup is getPriceAfter with "equal to the
   * reference" read as "none found".
   */
  lemma DifferentPriceInspectsOldestOnly(t: Table, instrument: string, startTime: int, reference: int, env: Env)
    ensures var next := GetPriceAfter(t, instrument, startTime, env);
      FindDifferentPriceAfter(t, instrument, startTime, reference, env)
        == if next.Some? && next.value != reference then next else None
  {
    var later := After(PricePartition(t, instrument), startTime);
    SingleItemQuery(later, true, (o: Observation) => o.price != reference);
  }

  /**
   * A differing price that is not the oldest later entry is never found:
   * when the oldest later entry repeats the reference price, the lookup
   * reports nothing although a different price was recorded afterwards.
   */
  lemma LaterDifferentPriceIsMissed(t: Table, instrument: string, startTime: int, reference: int, env: Env, ts: int)
    requires ts in PricePartition(t, instrument) && ts > startTime
    requires PricePartition(t, instrument)[ts].price != reference
    requires GetPriceAfter(t, instrument, startTime, env) == Some(reference)
    ensures FindDifferentPriceAfter(t, instrument, startTime, reference, env).None?
  {
    DifferentPriceInspectsOldestOnly(t, instrument, startTime, reference, env);
  }
}
