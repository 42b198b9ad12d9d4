/** The bounded in-memory cache with expiry, against an unbounded map of last writes. */
module Cache {
  import opened Wrappers
  import opened OrderedDict

  datatype Entry<V> = Entry(value: V, expiresAt: real, hits: nat)

  predicate Expired<V>(e: Entry<V>, now: real) {
    now > e.expiresAt
  }

  /** The first key, in dictionary order, with the least expiry. */
  function Oldest<K(==, !new), V>(d: Dict<K, Entry<V>>, n: nat): (k: K)
    requires 0 < n <= |d.order|
    ensures k in d.order[..n]
    ensures k in d.entries
            && forall x :: x in d.order[..n] ==> x in d.entries && d.entries[k].expiresAt <= d.entries[x].expiresAt
  {
    assert d.order[n - 1] in d.order;
    assert d.order[..n] == d.order[..n - 1] + [d.order[n - 1]];
    if n == 1 then d.order[0]
    else
      var k := Oldest(d, n - 1);
      if d.entries[d.order[n - 1]].expiresAt < d.entries[k].expiresAt then d.order[n - 1] else k
  }

  // ------------------------------------------------------------- the specification state

  /** What the cache is measured against: for each key its last write since any delete or clear,
      never forgotten; `evictions` counts what the bound forced out. */
  datatype Model<K, V> = Model(writes: map<K, Entry<V>>, evictions: nat)

  class InMemoryCache<K(==, !new), V> {
    const maxSize: int
    const defaultTtl: real
    var data: Dict<K, Entry<V>>
    ghost var model: Model<K, V>
    ghost var latest: real

    constructor (maxSize: int, defaultTtl: real, now: real)
      ensures this.maxSize == maxSize && this.defaultTtl == defaultTtl
      ensures Valid() && latest == now && model == Model(map[], 0) && Size(data) == 0
    {
      this.maxSize, this.defaultTtl := maxSize, defaultTtl;
      data, model, latest := Empty(), Model(map[], 0), now;
    }

    /** The cache holds only last writes, at most `maxSize` of them, and until something has been
        evicted it holds every last write that has not expired. */
    ghost predicate Valid()
      reads this
    {
      && (Size(data) == 0 || Size(data) <= maxSize)
      && (forall k :: k in data.entries ==> k in model.writes && Agrees(data.entries[k], model.writes[k]))
      && (model.evictions == 0 ==> forall k :: k in model.writes && !Expired(model.writes[k], latest) ==> k in data.entries)
    }

    method Lookup(key: K, now: real) returns (e: Option<Entry<V>>)
      requires Valid() && latest <= now
      modifies this`data, this`latest
      ensures Valid() && latest == now
      ensures var held := Get(old(data), key);
              && e == (if held.Some? && !Expired(held.value, now) then held else None)
              && data == if held.Some? && Expired(held.value, now) then Remove(old(data), key) else old(data)
    {
      hide WellFormed, Distinct;
      latest := now;
      e := Get(data, key);
      if e.Some? && Expired(e.value, now) {
        data := Remove(data, key);
        RemoveShrinks(old(data), key);
        e := None;
      }
    }

    method Fetch(key: K, now: real) returns (v: Option<V>)
      requires Valid() && latest <= now
      modifies this`data, this`latest
      ensures Valid() && latest == now
      // a value is the key's last write, up to and including the moment it expires
      ensures v.Some? ==> key in model.writes && model.writes[key].value == v.value && now <= model.writes[key].expiresAt
      // before the first eviction the converse holds too
      ensures model.evictions == 0 && key in model.writes && now <= model.writes[key].expiresAt ==>
                v == Some(model.writes[key].value)
      // and at any time for what is held
      ensures v.Some? <==> key in old(data).entries && now <= old(data).entries[key].expiresAt
      // and nothing else moves
      ensures forall k :: k != key ==> Get(data, k) == Get(old(data), k)
      ensures v.Some? ==> key in data.entries && key in old(data).entries && data.order == old(data).order
                          && data.entries[key] == old(data).entries[key].(hits := old(data).entries[key].hits + 1)
      ensures v.None? ==> key !in data.entries
    {
      var e := Lookup(key, now);
      if e.None? {
        return None;
      }
      data := Put(data, key, e.value.(hits := e.value.hits + 1));
      v := Some(e.value.value);
    }

    method HasKey(key: K, now: real) returns (yes: bool)
      requires Valid() && latest <= now
      modifies this`data, this`latest
      ensures Valid() && latest == now
      ensures yes ==> key in model.writes && now <= model.writes[key].expiresAt
      ensures model.evictions == 0 ==> (yes <==> key in model.writes && now <= model.writes[key].expiresAt)
      ensures yes <==> key in old(data).entries && now <= old(data).entries[key].expiresAt
      ensures yes <==> key in data.entries
      ensures forall k :: k != key ==> Get(data, k) == Get(old(data), k)
      ensures yes ==> data == old(data)
    {
      var e := Lookup(key, now);
      yes := e.Some?;
    }

    /** `_evict`: drops the first entry of the least expiry. */
    method Evict() returns (ghost victim: K)
      requires Valid() && data.order != []
      modifies this`data, this`model
      ensures Valid() && model == old(model).(evictions := old(model).evictions + 1)
      ensures Leaves(old(data), data, victim) && Size(data) == Size(old(data)) - 1
    {
      var oldest := Oldest(data, |data.order|);
      victim := oldest;
      assert data.order[..|data.order|] == data.order;
      RemoveShrinks(data, oldest);
      data := Remove(data, oldest);
      model := model.(evictions := model.evictions + 1);
    }

    /** `set`; `ok` is false when evicting from an empty cache raises. */
    method Store(key: K, value: V, ttl: Option<real>, now: real) returns (ok: bool)
      requires Valid() && latest <= now
      modifies this
      ensures Valid() && latest == now
      ensures ok <==> maxSize > 0 || key in old(data).entries
      ensures !ok ==> data == old(data) && model == old(model)
      ensures ok ==> model.writes
                     == old(model).writes[key := Entry(value, now + (if ttl.Some? then ttl.value else defaultTtl), 0)]
      ensures ok ==> key in data.entries && data.entries[key] == model.writes[key]
      ensures ok && (key in old(data).entries || Size(old(data)) < maxSize) ==>
                model.evictions == old(model).evictions && data == Put(old(data), key, model.writes[key])
      // a full cache gives up one entry, of the least expiry
      ensures ok && key !in old(data).entries && Size(old(data)) >= maxSize ==>
                model.evictions == old(model).evictions + 1 && Size(data) == Size(old(data))
                && exists rest, victim :: Leaves(old(data), rest, victim) && data == Put(rest, key, model.writes[key])
    {
      hide WellFormed, Distinct;
      latest := now;
      if Size(data) >= maxSize && key !in data.entries {
        if data.order == [] {
          return false;
        }
        ghost var victim := Evict();
        assert Leaves(old(data), data, victim);
      }
      var entry := Entry(value, now + (if ttl.Some? then ttl.value else defaultTtl), 0);
      data := Put(data, key, entry);
      model := model.(writes := model.writes[key := entry]);
      ok := true;
    }

    method Delete(key: K)
      requires Valid()
      modifies this`data, this`model
      ensures Valid() && data == Remove(old(data), key)
      ensures model == old(model).(writes := old(model).writes - {key})
    {
      RemoveShrinks(data, key);
      data := Remove(data, key);
      model := model.(writes := model.writes - {key});
    }

    method Clear()
      requires Valid()
      modifies this`data, this`model
      ensures Valid() && Size(data) == 0 && model == old(model).(writes := map[])
    {
      data := Empty();
      model := model.(writes := map[]);
    }
  }

  ghost predicate Agrees<V>(e: Entry<V>, w: Entry<V>) {
    e.value == w.value && e.expiresAt == w.expiresAt
  }

  /** `victim` alone left, and no entry was nearer to its expiry. */
  ghost predicate Leaves<K(!new), V>(before: Dict<K, Entry<V>>, after: Dict<K, Entry<V>>, victim: K) {
    && victim in before.entries && after == Remove(before, victim)
    && (forall k :: k in before.entries ==> before.entries[victim].expiresAt <= before.entries[k].expiresAt)
  }

  lemma RemoveShrinks<K(!new), V>(d: Dict<K, V>, k: K)
    ensures Size(Remove(d, k)) == if k in d.entries then Size(d) - 1 else Size(d)
  {
    assert k in d.entries <==> k in d.order;
  }

  /** A live entry is never evicted while an expired one is there to go, and one eviction
      takes exactly one key. */
  lemma LiveEntriesOutlast<K(!new), V>(before: Dict<K, Entry<V>>, after: Dict<K, Entry<V>>, victim: K, now: real)
    requires Leaves(before, after, victim)
    ensures (exists k :: k in before.entries && before.entries[k].expiresAt < now) <==> before.entries[victim].expiresAt < now
    ensures forall k :: k in after.entries <==> k in before.entries && k != victim
  {
  }
}
