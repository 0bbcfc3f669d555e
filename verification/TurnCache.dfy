/** The read-through cache of stored turns, used from one thread at a time. */
module TurnCache {
  import opened Prelude
  import opened LruCache

  /** Game, perspective and turn. */
  type Key = (int, int, int)
  datatype TurnInfo = TurnInfo(document: int)

  /** The stored turns, as a fill function finds them. */
  type Store = map<Key, TurnInfo>

  function Load(store: Store, key: Key): Option<TurnInfo> { if key in store then Some(store[key]) else None }

  /** Every cached turn is the stored one. */
  ghost predicate Coherent(e: Entries<Key, TurnInfo>, store: Store) {
    forall i: nat {:trigger e[i]} :: i < |e| ==> Load(store, e[i].0) == Some(e[i].1)
  }

  /** The cache after a read: a hit is used, a miss that finds a turn stores it. */
  function AfterRead(e: Entries<Key, TurnInfo>, store: Store, key: Key, maxsize: nat): Entries<Key, TurnInfo> {
    if Lookup(e, key).Some? then Used(e, key)
    else if key in store then Stored(e, key, store[key], maxsize)
    else e
  }

  class TurnInfoCache {
    const cache: LruCache<Key, TurnInfo>
    var underlyingLoadCalls: nat

    ghost predicate Valid()
      reads this, cache
    {
      cache.Valid()
    }

    constructor (maxsize: nat)
      ensures Valid() && fresh(cache) && cache.maxsize == maxsize && cache.entries == [] && underlyingLoadCalls == 0
    {
      cache := new LruCache(maxsize);
      underlyingLoadCalls := 0;
    }

    /** Read through: `store` is what the fill function would find. */
    method Get(key: Key, store: Store) returns (turn: Option<TurnInfo>)
      requires Valid()
      modifies this`underlyingLoadCalls, cache
      ensures Valid() && cache.entries == AfterRead(old(cache.entries), store, key, cache.maxsize)
      ensures turn == if Lookup(old(cache.entries), key).Some? then Lookup(old(cache.entries), key)
              else Load(store, key)
      ensures Coherent(old(cache.entries), store) ==> turn == Load(store, key) && Coherent(cache.entries, store)
      ensures underlyingLoadCalls == old(underlyingLoadCalls) + (if Lookup(old(cache.entries), key).Some? then 0 else 1)
    {
      if Coherent(cache.entries, store) {
        ReadKeepsSound(cache.entries, store, key, cache.maxsize);
        if Lookup(cache.entries, key).Some? { HitIsStored(cache.entries, store, key); }
      }
      var cached := cache.Get(key);
      if cached.Some? { return cached; }
      underlyingLoadCalls := underlyingLoadCalls + 1;
      var loaded := Load(store, key);
      if loaded.None? { return None; }
      var existing := cache.Get(key);
      if existing.Some? { return existing; }
      cache.Put(key, loaded.value);
      return loaded;
    }

    /** After the turn's document was written with this content. */
    method Put(key: Key, turn: TurnInfo)
      requires Valid()
      modifies cache
      ensures Valid() && cache.entries == Stored(old(cache.entries), key, turn, cache.maxsize)
    {
      cache.Put(key, turn);
    }

    /** After the turn's document was written without a turn. */
    method Drop(key: Key)
      requires Valid()
      modifies cache
      ensures Valid() && cache.entries == Dropped(old(cache.entries), key)
    {
      cache.Drop(key);
    }
  }

  // --- whole traces -------------------------------------------------------------------------

  /** A read, or a write of a turn's document followed by `put` or `drop`. */
  datatype Access = Read(key: Key) | Write(key: Key, turn: Option<TurnInfo>)

  function StoreAfter(store: Store, a: Access): Store {
    match a
    case Read(_) => store
    case Write(k, turn) => if turn.Some? then store[k := turn.value] else store - {k}
  }

  function CacheAfter(e: Entries<Key, TurnInfo>, store: Store, a: Access, maxsize: nat): Entries<Key, TurnInfo> {
    match a
    case Read(k) => AfterRead(e, store, k, maxsize)
    case Write(k, turn) => if turn.Some? then Stored(e, k, turn.value, maxsize) else Dropped(e, k)
  }

  function StoreRun(store: Store, trace: seq<Access>): Store
    decreases |trace|
  {
    if trace == [] then store else StoreRun(StoreAfter(store, trace[0]), trace[1..])
  }

  function CacheRun(e: Entries<Key, TurnInfo>, store: Store, trace: seq<Access>, maxsize: nat): Entries<Key, TurnInfo>
    decreases |trace|
  {
    if trace == [] then e
    else CacheRun(CacheAfter(e, store, trace[0], maxsize), StoreAfter(store, trace[0]), trace[1..], maxsize)
  }

  /** How many reads of the trace reach the store. */
  function Loads(e: Entries<Key, TurnInfo>, store: Store, trace: seq<Access>, maxsize: nat): nat
    decreases |trace|
  {
    if trace == [] then 0
    else
      (if trace[0].Read? && Lookup(e, trace[0].key).None? then 1 else 0)
      + Loads(CacheAfter(e, store, trace[0], maxsize), StoreAfter(store, trace[0]), trace[1..], maxsize)
  }

  ghost predicate Sound(e: Entries<Key, TurnInfo>, store: Store, maxsize: nat) {
    DistinctKeys(e) && |e| <= maxsize && Coherent(e, store)
  }

  /** A hit is the stored turn. */
  lemma HitIsStored(e: Entries<Key, TurnInfo>, store: Store, key: Key)
    requires DistinctKeys(e) && Coherent(e, store) && Lookup(e, key).Some?
    ensures Lookup(e, key) == Load(store, key) && key in store
  {
    var i := DroppedForm(e, key);
    assert Load(store, e[i].0) == Some(e[i].1);
  }

  lemma StoredKeepsSound(e: Entries<Key, TurnInfo>, store: Store, key: Key, turn: TurnInfo, maxsize: nat)
    requires DistinctKeys(e) && Coherent(e, store)
    ensures Sound(Stored(e, key, turn, maxsize), store[key := turn], maxsize)
  {
    StoredDistinct(e, key, turn, maxsize);
    var i := DroppedForm(e, key);
    hide Dropped, Lookup;
    assert Coherent(Dropped(e, key), store[key := turn]);
  }

  /** A read of a stored turn ends the same way whether it hits or misses. */
  lemma UsedIsStored(e: Entries<Key, TurnInfo>, store: Store, key: Key, maxsize: nat)
    requires Sound(e, store, maxsize) && key in store
    ensures AfterRead(e, store, key, maxsize) == Stored(e, key, store[key], maxsize)
  {
    var i := DroppedForm(e, key);
    if Lookup(e, key).Some? { HitIsStored(e, store, key); }
  }

  lemma ReadKeepsSound(e: Entries<Key, TurnInfo>, store: Store, key: Key, maxsize: nat)
    requires Sound(e, store, maxsize)
    ensures Sound(AfterRead(e, store, key, maxsize), store, maxsize)
  {
    if key in store {
      UsedIsStored(e, store, key, maxsize);
      StoredKeepsSound(e, store, key, store[key], maxsize);
      assert store[key := store[key]] == store;
    } else if Lookup(e, key).Some? {
      HitIsStored(e, store, key);
    }
  }

  /** A turn that was read is cached, whatever the cache held: the next read of it is a hit. */
  lemma ReadThenHits(e: Entries<Key, TurnInfo>, store: Store, key: Key, maxsize: nat)
    requires Sound(e, store, maxsize) && maxsize > 0 && key in store
    ensures Lookup(AfterRead(e, store, key, maxsize), key) == Some(store[key])
  {
    UsedIsStored(e, store, key, maxsize);
    ReadKeepsSound(e, store, key, maxsize);
    var r := Stored(e, key, store[key], maxsize);
    var i := StoredForm(e, key, store[key], maxsize);
    assert r[|r| - 1] == (key, store[key]);
    hide Stored;
    LookupAt(r, |r| - 1);
  }

  lemma DropKeepsSound(e: Entries<Key, TurnInfo>, store: Store, key: Key, maxsize: nat)
    requires Sound(e, store, maxsize)
    ensures Sound(Dropped(e, key), store - {key}, maxsize)
  {
    var i := DroppedForm(e, key);
    hide Dropped, Lookup;
  }

  lemma AccessKeepsSound(e: Entries<Key, TurnInfo>, store: Store, a: Access, maxsize: nat)
    requires Sound(e, store, maxsize)
    ensures Sound(CacheAfter(e, store, a, maxsize), StoreAfter(store, a), maxsize)
  {
    match a {
      case Read(k) => ReadKeepsSound(e, store, k, maxsize);
      case Write(k, turn) =>
        if turn.Some? { StoredKeepsSound(e, store, k, turn.value, maxsize); }
            else { DropKeepsSound(e, store, k, maxsize); }
    }
  }

  /** Over any trace in which every write is followed by `put` or `drop`, the cache stays within
      its bound and every read returns what the store holds. */
  lemma {:induction false} CacheAgrees(e: Entries<Key, TurnInfo>, store: Store, trace: seq<Access>, maxsize: nat,
          key: Key)
    requires Sound(e, store, maxsize)
    ensures var end, now := CacheRun(e, store, trace, maxsize), StoreRun(store, trace);
            && Sound(end, now, maxsize)
            && (Lookup(end, key).Some? ==> Lookup(end, key) == Load(now, key))
    decreases |trace|
  {
    if trace == [] {
      if Lookup(e, key).Some? { HitIsStored(e, store, key); }
    } else {
      AccessKeepsSound(e, store, trace[0], maxsize);
      CacheAgrees(CacheAfter(e, store, trace[0], maxsize), StoreAfter(store, trace[0]), trace[1..], maxsize, key);
    }
  }

  // --- cache sizes --------------------------------------------------------------------------

  /** One cache holds exactly the most recently used entries of the other. */
  ghost predicate Recent(small: Entries<Key, TurnInfo>, large: Entries<Key, TurnInfo>) {
    |small| <= |large| && small == large[|large| - |small|..]
  }

  /** A key of the smaller cache is in the larger, further from its end by the same amount. */
  lemma RecentDropped(small: Entries<Key, TurnInfo>, large: Entries<Key, TurnInfo>, key: Key)
    requires DistinctKeys(large) && Recent(small, large)
    ensures Recent(Dropped(small, key), Dropped(large, key))
    ensures Lookup(small, key).Some? ==> Lookup(large, key) == Lookup(small, key)
  {
    var gap := |large| - |small|;
    assert DistinctKeys(small);
    var i := DroppedForm(large, key);
    var j := DroppedForm(small, key);
    hide Dropped, Lookup;
    if j < |small| {
      assert large[j + gap] == small[j];
      SuffixWithoutOne(small, large, i);
    } else if i < |large| {
      forall m: nat | gap <= m < |large| ensures large[m].0 != key { assert small[m - gap] == large[m]; }
      SuffixBehindOne(small, large, i);
    }
  }

  lemma SuffixWithoutOne(small: Entries<Key, TurnInfo>, large: Entries<Key, TurnInfo>, i: nat)
    requires Recent(small, large) && |large| - |small| <= i < |large|
    ensures var j := i - (|large| - |small|);
            Recent(small[..j] + small[j + 1..], large[..i] + large[i + 1..])
  {}

  lemma SuffixBehindOne(small: Entries<Key, TurnInfo>, large: Entries<Key, TurnInfo>, i: nat)
    requires Recent(small, large) && i < |large| - |small|
    ensures Recent(small, large[..i] + large[i + 1..])
  {}

  lemma RecentStored(small: Entries<Key, TurnInfo>, large: Entries<Key, TurnInfo>, key: Key, turn: TurnInfo, m: nat,
          n: nat)
    requires DistinctKeys(large) && Recent(small, large) && m <= n
    ensures Recent(Stored(small, key, turn, m), Stored(large, key, turn, n))
  {
    RecentDropped(small, large, key);
    RecentNewest(Dropped(small, key) + [(key, turn)], Dropped(large, key) + [(key, turn)], m, n);
  }

  lemma RecentNewest(small: Entries<Key, TurnInfo>, large: Entries<Key, TurnInfo>, m: nat, n: nat)
    requires Recent(small, large) && m <= n
    ensures Recent(Newest(small, m), Newest(large, n))
  {}

  lemma AccessKeepsRecent(small: Entries<Key, TurnInfo>, large: Entries<Key, TurnInfo>, store: Store, a: Access,
          m: nat, n: nat)
    requires Sound(small, store, m) && Sound(large, store, n) && m <= n && Recent(small, large)
    ensures Recent(CacheAfter(small, store, a, m), CacheAfter(large, store, a, n))
    ensures Lookup(small, a.key).Some? ==> Lookup(large, a.key).Some?
  {
    RecentDropped(small, large, a.key);
    match a {
      case Read(k) =>
        if Lookup(large, k).Some? { HitIsStored(large, store, k); }
        if k in store {
          RecentStored(small, large, k, store[k], m, n);
          UsedIsStored(small, store, k, m);
          UsedIsStored(large, store, k, n);
        }
      case Write(k, turn) =>
        if turn.Some? { RecentStored(small, large, k, turn.value, m, n); }
    }
  }

  /** On every trace a smaller cache holds the most recently used part of a larger one, so the
      larger one never loads more often. */
  lemma {:induction false} LargerCacheLoadsLess(small: Entries<Key, TurnInfo>, large: Entries<Key, TurnInfo>,
          store: Store, trace: seq<Access>, m: nat, n: nat)
    requires Sound(small, store, m) && Sound(large, store, n) && m <= n && Recent(small, large)
    ensures Recent(CacheRun(small, store, trace, m), CacheRun(large, store, trace, n))
    ensures Loads(large, store, trace, n) <= Loads(small, store, trace, m)
    decreases |trace|
  {
    if trace != [] {
      AccessKeepsRecent(small, large, store, trace[0], m, n);
      AccessKeepsSound(small, store, trace[0], m);
      AccessKeepsSound(large, store, trace[0], n);
      LargerCacheLoadsLess(CacheAfter(small, store, trace[0], m), CacheAfter(large, store, trace[0], n),
          StoreAfter(store, trace[0]), trace[1..], m, n);
    }
  }
}
