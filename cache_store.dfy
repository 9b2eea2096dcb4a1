/** The cache store of services/cache.py (`CacheService`): one document
    per fingerprint in the `cache_entries` collection, with a payload and an
    absolute expiry. The collection is the map `entries`; the clock
    (`datetime.utcnow()`) is the parameter `now`; whether the document
    store call fails is the parameter `fault`. Times and durations are
    integer microseconds. */
module CacheStore {
  import opened Wrappers
  import opened CacheKey
  import opened Serializer

  const Microsecond := 1
  const Second := 1000000 * Microsecond
  /** `DEFAULT_TTL = timedelta(days=1)` */
  const DefaultTtl := 86400 * Second

  /** A document `{key, data, expires_at}`; the key is the map key. */
  datatype Entry = Entry(data: Stored, expiresAt: int)

  /** An error raised by the document store. */
  datatype StoreError = StoreError

  /** An index as `index_information()` reports it. */
  datatype IndexSpec = IndexSpec(field: string, unique: bool)

  /** `ttl or self.DEFAULT_TTL`: a missing or zero-length ttl is falsy. */
  function EffectiveTtl(ttl: Option<int>): (d: int)
    ensures ttl.Some? && ttl.value != 0 ==> d == ttl.value
    ensures ttl.None? || ttl.value == 0 ==> d == DefaultTtl
  {
    if ttl.Some? && ttl.value != 0 then ttl.value else DefaultTtl
  }

  /** What the query `{"key": key, "expires_at": {"$gt": now}}` yields as
      the caller sees it: the stored data of a live entry, else `None`. */
  function Fetch(entries: map<string, Entry>, key: string, now: int): Stored {
    if key in entries && entries[key].expiresAt > now then entries[key].data else SNone
  }

  predicate Live(entries: map<string, Entry>, key: string, now: int) {
    key in entries && entries[key].expiresAt > now
  }

  /** `update_one(..., upsert=True)`: the entry for `key` is created or replaced. */
  function Upsert(entries: map<string, Entry>, key: string, e: Entry): map<string, Entry> {
    entries[key := e]
  }

  /** `update_many(...)` without upsert: an existing entry is replaced,
      a missing one is not created. */
  function Refresh(entries: map<string, Entry>, key: string, e: Entry): map<string, Entry> {
    if key in entries then entries[key := e] else entries
  }

  /** `delete_many({"key": key})` */
  function Remove(entries: map<string, Entry>, key: string): map<string, Entry> {
    entries - {key}
  }

  /** `delete_many({"expires_at": {"$lt": now}})`: strictly earlier expiries only. */
  function Sweep(entries: map<string, Entry>, now: int): map<string, Entry> {
    map k | k in entries && !(entries[k].expiresAt < now) :: entries[k]
  }

  /** The document `set`/`aset` write for `value` at time `now`. */
  function NewEntry(value: PyValue, ttl: Option<int>, now: int): Entry {
    Entry(Serialize(value), now + EffectiveTtl(ttl))
  }

  /** The two indexes of the cache collection: a unique one on `key` and
      one on `expires_at`. */
  function CacheIndexes(): seq<(string, IndexSpec)> {
    [("key_index", IndexSpec("key", true)), ("expiry_index", IndexSpec("expires_at", false))]
  }

  /** `create_indexes`: each index is created unless one with the same
      name and key pattern already exists. */
  function CreateIndexes(existing: map<string, IndexSpec>, specs: seq<(string, IndexSpec)>): map<string, IndexSpec>
    decreases |specs|
  {
    if specs == [] then existing
    else
      var before := CreateIndexes(existing, specs[..|specs| - 1]);
      var (name, spec) := specs[|specs| - 1];
      if name in before && before[name].field == spec.field then before else before[name := spec]
  }

  /** `_setup_indexes`: nothing when `key_index` exists, otherwise
      `create_indexes` with both cache indexes. */
  function IndexesAfterSetup(existing: map<string, IndexSpec>): map<string, IndexSpec> {
    if "key_index" in existing then existing else CreateIndexes(existing, CacheIndexes())
  }

  /** Index setup leaves an existing `key_index` configuration alone; on
      a collection without it, it creates the unique `key_index`, makes sure
      an index on `expires_at` named `expiry_index` exists, and touches no
      other index. Running it again changes nothing. */
  lemma SetupIndexesEffect(existing: map<string, IndexSpec>)
    ensures "key_index" in existing ==> IndexesAfterSetup(existing) == existing
    ensures "key_index" !in existing ==>
      var r := IndexesAfterSetup(existing);
      r["key_index"] == IndexSpec("key", true)
      && "expiry_index" in r && r["expiry_index"].field == "expires_at"
      && r.Keys == existing.Keys + {"key_index", "expiry_index"}
      && (forall n :: n in existing && n != "expiry_index" ==> r[n] == existing[n])
      && ("expiry_index" in existing && existing["expiry_index"].field == "expires_at" ==>
            r["expiry_index"] == existing["expiry_index"])
    ensures IndexesAfterSetup(IndexesAfterSetup(existing)) == IndexesAfterSetup(existing)
  {
    var specs := CacheIndexes();
    if "key_index" !in existing {
      assert specs[..1][..0] == [] && specs[..2][..1] == specs[..1];
      var one := existing["key_index" := IndexSpec("key", true)];
      assert CreateIndexes(existing, specs[..1]) == one;
      var e := IndexSpec("expires_at", false);
      assert CreateIndexes(existing, specs) ==
        if "expiry_index" in one && one["expiry_index"].field == "expires_at" then one else one["expiry_index" := e];
    }
  }

  class CacheService {
    /** The `cache_entries` collection, one document per key. */
    var entries: map<string, Entry>
    /** `index_information()` of the collection, by index name. */
    var indexes: map<string, IndexSpec>

    /** `__init__` over a collection that may already hold documents and
        indexes, followed by `_setup_indexes`. */
    constructor (existing: map<string, Entry>, existingIndexes: map<string, IndexSpec>)
      ensures entries == existing
      ensures indexes == IndexesAfterSetup(existingIndexes)
    {
      entries := existing;
      indexes := existingIndexes;
      new;
      SetupIndexes();
    }

    /** `_setup_indexes`, with the skip rule of `create_indexes`. */
    method SetupIndexes()
      modifies this`indexes
      ensures indexes == IndexesAfterSetup(old(indexes))
    {
      if "key_index" in indexes {
        return;
      }
      var specs := CacheIndexes();
      var i := 0;
      while i < |specs|
        invariant 0 <= i <= |specs|
        invariant indexes == CreateIndexes(old(indexes), specs[..i])
      {
        var (name, spec) := specs[i];
        if !(name in indexes && indexes[name].field == spec.field) {
          indexes := indexes[name := spec];
        }
        assert specs[..i + 1] == specs[..i] + [specs[i]];
        i := i + 1;
      }
      assert specs[..|specs|] == specs;
    }

    /** `get`: the live entry's data, else `None`. The store's `query`
        has no `try`, so a failing lookup raises. */
    method Get(service: string, operation: string, args: ArgMap, now: int, fault: bool)
      returns (r: Result<Stored, StoreError>)
      ensures fault <==> r.Err?
      ensures r.Ok? ==> r.value == Fetch(entries, GenerateKey(service, operation, args), now)
    {
      if fault {
        return Err(StoreError);
      }
      var key := GenerateKey(service, operation, args);
      if key in entries && entries[key].expiresAt > now {
        return Ok(entries[key].data);
      }
      return Ok(SNone);
    }

    /** `aget`: the same lookup; `aquery` does not catch errors either. */
    method AGet(service: string, operation: string, args: ArgMap, now: int, fault: bool)
      returns (r: Result<Stored, StoreError>)
      ensures fault <==> r.Err?
      ensures r.Ok? ==> r.value == Fetch(entries, GenerateKey(service, operation, args), now)
    {
      r := Get(service, operation, args, now, fault);
    }

    /** `set`: `update_records` runs `update_many` without upsert, so only
        an existing entry is refreshed; its errors are swallowed. */
    method Set(service: string, operation: string, args: ArgMap, value: PyValue, ttl: Option<int>, now: int, fault: bool)
      modifies this`entries
      ensures entries == if fault then old(entries)
        else Refresh(old(entries), GenerateKey(service, operation, args), NewEntry(value, ttl, now))
    {
      var key := GenerateKey(service, operation, args);
      var e := Entry(Serialize(value), now + EffectiveTtl(ttl));
      if !fault && key in entries {
        entries := entries[key := e];
      }
    }

    /** `aset`: `update_one(..., upsert=True)` creates or replaces the
        entry; there is no `try`, so a store error raises. */
    method ASet(service: string, operation: string, args: ArgMap, value: PyValue, ttl: Option<int>, now: int, fault: bool)
      returns (r: Result<(), StoreError>)
      modifies this`entries
      ensures fault <==> r.Err?
      ensures entries == if fault then old(entries)
        else Upsert(old(entries), GenerateKey(service, operation, args), NewEntry(value, ttl, now))
    {
      if fault {
        return Err(StoreError);
      }
      var key := GenerateKey(service, operation, args);
      entries := entries[key := Entry(Serialize(value), now + EffectiveTtl(ttl))];
      return Ok(());
    }

    /** `invalidate` / `ainvalidate`: remove the entry for that key; the
        store's delete helpers swallow their errors. */
    method Invalidate(service: string, operation: string, args: ArgMap, fault: bool)
      modifies this`entries
      ensures entries == if fault then old(entries) else Remove(old(entries), GenerateKey(service, operation, args))
    {
      if !fault {
        entries := entries - {GenerateKey(service, operation, args)};
      }
    }

    method AInvalidate(service: string, operation: string, args: ArgMap, fault: bool)
      modifies this`entries
      ensures entries == if fault then old(entries) else Remove(old(entries), GenerateKey(service, operation, args))
    {
      Invalidate(service, operation, args, fault);
    }

    /** `clear_all` / `aclear_all`: `delete_many({})`. */
    method ClearAll(fault: bool)
      modifies this`entries
      ensures entries == if fault then old(entries) else map[]
    {
      if !fault {
        entries := map[];
      }
    }

    method AClearAll(fault: bool)
      modifies this`entries
      ensures entries == if fault then old(entries) else map[]
    {
      ClearAll(fault);
    }

    /** `clear_expired` / `aclear_expired`: remove entries that expired
        strictly before `now`. */
    method ClearExpired(now: int, fault: bool)
      modifies this`entries
      ensures entries == if fault then old(entries) else Sweep(old(entries), now)
    {
      if !fault {
        entries := map k | k in entries && !(entries[k].expiresAt < now) :: entries[k];
      }
    }

    method AClearExpired(now: int, fault: bool)
      modifies this`entries
      ensures entries == if fault then old(entries) else Sweep(old(entries), now)
    {
      ClearExpired(now, fault);
    }
  }

  /** Time-to-live: after an upsert at `t`, a lookup at `q` sees the new
      data exactly while `q < t + ttl` (a zero ttl meaning one day). */
  lemma TtlExpiry(entries: map<string, Entry>, key: string, value: PyValue, ttl: Option<int>, t: int, q: int)
    ensures Live(Upsert(entries, key, NewEntry(value, ttl, t)), key, q) <==> q < t + EffectiveTtl(ttl)
    ensures q < t + EffectiveTtl(ttl) ==>
      Fetch(Upsert(entries, key, NewEntry(value, ttl, t)), key, q) == Serialize(value)
    ensures q >= t + EffectiveTtl(ttl) ==> Fetch(Upsert(entries, key, NewEntry(value, ttl, t)), key, q) == SNone
  {
  }

  /** A second upsert replaces both payload and expiry of the first. */
  lemma UpsertOverwrites(entries: map<string, Entry>, key: string, e1: Entry, e2: Entry)
    ensures Upsert(Upsert(entries, key, e1), key, e2) == Upsert(entries, key, e2)
  {
  }

  /** The synchronous `set` never creates an entry for a new key, so a
      lookup right after it still misses. */
  lemma RefreshNeverCreates(entries: map<string, Entry>, key: string, e: Entry, q: int)
    requires key !in entries
    ensures Refresh(entries, key, e) == entries
    ensures Fetch(Refresh(entries, key, e), key, q) == SNone
  {
  }

  /** Invalidation removes that key only and a second call is a no-op. */
  lemma InvalidateIdempotent(entries: map<string, Entry>, key: string)
    ensures Remove(Remove(entries, key), key) == Remove(entries, key)
    ensures key !in Remove(entries, key)
    ensures forall k :: k != key ==> (k in Remove(entries, key) <==> k in entries)
    ensures forall k :: k != key && k in entries ==> Remove(entries, key)[k] == entries[k]
  {
  }

  /** The sweep keeps exactly the entries with `expires_at >= now`,
      unchanged. */
  lemma SweepSelective(entries: map<string, Entry>, now: int)
    ensures forall k :: k in Sweep(entries, now) <==> k in entries && entries[k].expiresAt >= now
    ensures forall k :: k in Sweep(entries, now) ==> Sweep(entries, now)[k] == entries[k]
  {
  }

  /** An entry expiring exactly at `now` survives the sweep although a
      lookup at `now` already misses it. */
  lemma SweepBoundary(entries: map<string, Entry>, key: string, now: int)
    requires key in entries && entries[key].expiresAt == now
    ensures key in Sweep(entries, now)
    ensures Fetch(entries, key, now) == SNone
  {
  }

  /** Sweeping never changes what a lookup at or after the sweep time sees. */
  lemma SweepInvisible(entries: map<string, Entry>, now: int, key: string, q: int)
    requires q >= now
    ensures Fetch(Sweep(entries, now), key, q) == Fetch(entries, key, q)
  {
  }
}
