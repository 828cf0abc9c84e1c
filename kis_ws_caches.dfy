/**
 * The two in-memory quote caches the real-time feed writes: `PriceCache` (code to price
 * snapshot) and `StockRealtimeCache` (code to the last tick). Both ignore a null key or
 * value; the concurrent hash maps are plain maps here.
 */
module KisWsCaches {
  import opened Wrappers

  /** `PriceSnapshot`: a price, its change, change rate, volume and update time. */
  datatype PriceSnapshot = PriceSnapshot(
    currentPrice: real,
    change: real,
    changeRate: real,
    volume: int,
    updatedAtMillis: int)

  /** `RealtimeStock`: the same figures with the code they belong to. */
  datatype RealtimeStock = RealtimeStock(
    stockCode: string,
    currentPrice: real,
    change: real,
    changeRate: real,
    volume: int,
    updatedAtMillis: int)

  /** The lookup of both caches: `Optional.ofNullable(cache.get(k))`. A null key makes the
      concurrent map throw `NullPointerException`. */
  function Lookup<V>(cache: map<string, V>, key: Option<string>): (r: Result<Option<V>>)
    ensures key.None? <==> r.Err?
    ensures key.Some? && key.value in cache ==> r == Ok(Some(cache[key.value]))
    ensures key.Some? && key.value !in cache ==> r == Ok(None)
  {
    if key.None? then Err(UnexpectedError("NullPointerException"))
    else if key.value in cache then Ok(Some(cache[key.value]))
    else Ok(None)
  }

  /** The store of both caches: a null key or value changes nothing. */
  function Store<V>(cache: map<string, V>, key: Option<string>, value: Option<V>): (r: map<string, V>)
    ensures key.None? || value.None? ==> r == cache
    ensures key.Some? && value.Some? ==> key.value in r && r[key.value] == value.value
    ensures forall k :: key != Some(k) ==> (k in r <==> k in cache) && (k in r ==> r[k] == cache[k])
  {
    if key.Some? && value.Some? then cache[key.value := value.value] else cache
  }

  /** A stored value is what the next lookup of its key returns, whatever was there
      before; every other key keeps its lookup. */
  lemma LookupAfterStore<V>(cache: map<string, V>, key: string, value: V, other: Option<string>)
    ensures Lookup(Store(cache, Some(key), Some(value)), Some(key)) == Ok(Some(value))
    ensures other != Some(key) ==> Lookup(Store(cache, Some(key), Some(value)), other) == Lookup(cache, other)
  {
  }

  class PriceCache {
    var cache: map<string, PriceSnapshot>

    constructor ()
      ensures cache == map[]
    {
      cache := map[];
    }

    /** `get`: the snapshot of the code, or empty. */
    function Get(stockCode: Option<string>): Result<Option<PriceSnapshot>>
      reads this
    {
      Lookup(cache, stockCode)
    }

    /** `put`: stores the snapshot unless the code or the snapshot is null. */
    method Put(stockCode: Option<string>, snapshot: Option<PriceSnapshot>)
      modifies this
      ensures cache == Store(old(cache), stockCode, snapshot)
    {
      if stockCode.Some? && snapshot.Some? {
        cache := cache[stockCode.value := snapshot.value];
      }
    }
  }

  class StockRealtimeCache {
    var cache: map<string, RealtimeStock>

    constructor ()
      ensures cache == map[]
    {
      cache := map[];
    }

    /** `put`: stores the tick unless the code or the tick is null. */
    method Put(stockCode: Option<string>, v: Option<RealtimeStock>)
      modifies this
      ensures cache == Store(old(cache), stockCode, v)
    {
      if stockCode.Some? && v.Some? {
        cache := cache[stockCode.value := v.value];
      }
    }

    /** `get`: the last tick put for the code, or empty. */
    function Get(stockCode: Option<string>): Result<Option<RealtimeStock>>
      reads this
    {
      Lookup(cache, stockCode)
    }

    /** `getAllSnapshot`: a copy of the current contents; being a value, later puts do not
        change it. */
    method GetAllSnapshot() returns (snapshot: map<string, RealtimeStock>)
      ensures snapshot == cache
    {
      snapshot := cache;
    }
  }
}
