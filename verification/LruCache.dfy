/** A bounded cache that forgets what was used longest ago. */
module LruCache {
  import opened Prelude

  /** Entries by recency, the least recently used first; `OrderedDict` keeps them in this order. */
  type Entries<K, V> = seq<(K, V)>

  function Lookup<K(==), V>(e: Entries<K, V>, key: K): Option<V> {
    if e == [] then None else if e[0].0 == key then Some(e[0].1) else Lookup(e[1..], key)
  }

  function Dropped<K(==), V>(e: Entries<K, V>, key: K): (r: Entries<K, V>)
    ensures |r| <= |e|
  {
    if e == [] then [] else if e[0].0 == key then e[1..] else [e[0]] + Dropped(e[1..], key)
  }

  /** The `n` most recently used entries. */
  function Newest<K, V>(e: Entries<K, V>, n: nat): Entries<K, V> {
    if |e| > n then e[|e| - n..] else e
  }

  function Used<K(==), V>(e: Entries<K, V>, key: K): Entries<K, V> {
    if Lookup(e, key).Some? then Dropped(e, key) + [(key, Lookup(e, key).value)] else e
  }

  function Stored<K(==), V>(e: Entries<K, V>, key: K, value: V, maxsize: nat): Entries<K, V> {
    Newest(Dropped(e, key) + [(key, value)], maxsize)
  }

  ghost predicate DistinctKeys<K, V>(e: Entries<K, V>) {
    forall i: nat, j: nat {:trigger e[i], e[j]} :: i < j < |e| ==> e[i].0 != e[j].0
  }

  lemma {:induction false} LookupAt<K, V>(e: Entries<K, V>, i: nat)
    requires DistinctKeys(e) && i < |e|
    ensures Lookup(e, e[i].0) == Some(e[i].1)
    ensures Dropped(e, e[i].0) == e[..i] + e[i + 1..]
  {
    if i > 0 {
      assert e[0].0 != e[i].0;
      LookupAt(e[1..], i - 1);
      assert e[1..][i - 1] == e[i] && e[1..][..i - 1] == e[1..i] && e[1..][i..] == e[i + 1..];
    }
  }

  lemma {:induction false} LookupNone<K, V>(e: Entries<K, V>, key: K)
    ensures Lookup(e, key).None? <==> forall i: nat {:trigger e[i]} :: i < |e| ==> e[i].0 != key
    ensures Lookup(e, key).None? ==> Dropped(e, key) == e
  {
    if e != [] {
      LookupNone(e[1..], key);
      if Lookup(e, key).None? {
        forall i: nat | i < |e| ensures e[i].0 != key { if i > 0 { assert e[1..][i - 1] == e[i]; } }
      } else if e[0].0 != key {
        var i: nat :| i < |e[1..]| && e[1..][i].0 == key;
        assert e[i + 1].0 == key;
      }
    }
  }

  /** Dropping a key takes out the one entry that has it, if there is one. */
  lemma DroppedForm<K, V>(e: Entries<K, V>, key: K) returns (i: nat)
    requires DistinctKeys(e)
    ensures i <= |e|
    ensures i == |e| ==> Lookup(e, key).None? && Dropped(e, key) == e && forall j: nat {:trigger e[j]} :: j < |e| ==>
            e[j].0 != key
    ensures i < |e| ==> e[i].0 == key && Lookup(e, key) == Some(e[i].1) && Dropped(e, key) == e[..i] + e[i + 1..]
  {
    LookupNone(e, key);
    if Lookup(e, key).None? { return |e|; }
    i :| i < |e| && e[i].0 == key;
    LookupAt(e, i);
  }

  /** Storing or using an entry keeps the keys distinct. */
  lemma StoredDistinct<K, V>(e: Entries<K, V>, key: K, value: V, maxsize: nat)
    requires DistinctKeys(e)
    ensures DistinctKeys(Dropped(e, key)) && DistinctKeys(Dropped(e, key) + [(key, value)])
            && DistinctKeys(Stored(e, key, value, maxsize))
  {
    var i := DroppedForm(e, key);
    hide Dropped, Lookup;
  }

  /** What using a key does to the order: its entry, if it has one, becomes the most recent. */
  lemma UsedForm<K, V>(e: Entries<K, V>, key: K) returns (i: nat)
    requires DistinctKeys(e)
    ensures i <= |e| && (i < |e| ==> e[i].0 == key && Used(e, key) == e[..i] + e[i + 1..] + [e[i]])
    ensures i == |e| ==> Used(e, key) == e && forall j: nat {:trigger e[j]} :: j < |e| ==> e[j].0 != key
  {
    i := DroppedForm(e, key);
  }

  /** What storing does: an entry of the key goes, the new one is the most recent, the rest keep
      their order, and only a full cache that did not have the key forgets its oldest entry. */
  lemma StoredForm<K, V>(e: Entries<K, V>, key: K, value: V, maxsize: nat) returns (i: nat)
    requires DistinctKeys(e) && |e| <= maxsize && maxsize > 0
    ensures i <= |e| && (i < |e| ==>
              e[i].0 == key && Stored(e, key, value, maxsize) == e[..i] + e[i + 1..] + [(key, value)])
    ensures i == |e| ==> forall j: nat {:trigger e[j]} :: j < |e| ==> e[j].0 != key
    ensures i == |e| < maxsize ==> Stored(e, key, value, maxsize) == e + [(key, value)]
    ensures i == |e| == maxsize ==> Stored(e, key, value, maxsize) == e[1..] + [(key, value)]
  {
    i := DroppedForm(e, key);
    hide Dropped, Lookup;
    if i == |e| == maxsize { assert (e + [(key, value)])[1..] == e[1..] + [(key, value)]; }
  }

  class LruCache<K(==), V(==)> {
    const maxsize: nat
    var entries: Entries<K, V>

    ghost predicate Valid()
      reads this
    {
      DistinctKeys(entries) && |entries| <= maxsize
    }

    constructor (maxsize: nat)
      ensures Valid() && entries == [] && this.maxsize == maxsize
    {
      this.maxsize := maxsize;
      entries := [];
    }

    method Get(key: K) returns (value: Option<V>)
      requires Valid()
      modifies this`entries
      ensures Valid() && entries == Used(old(entries), key)
      ensures value == Lookup(old(entries), key)
    {
      value := Lookup(entries, key);
      if value.None? { return None; }
      MoveToEnd(key, value.value);
      ghost var i := DroppedForm(old(entries), key);
    }

    method MoveToEnd(key: K, value: V)
      requires DistinctKeys(entries)
      modifies this`entries
      ensures DistinctKeys(entries) && entries == Dropped(old(entries), key) + [(key, value)]
    {
      StoredDistinct(entries, key, value, 0);
      entries := Dropped(entries, key) + [(key, value)];
    }

    method Put(key: K, value: V)
      requires Valid()
      modifies this`entries
      ensures Valid() && entries == Stored(old(entries), key, value, maxsize)
    {
      MoveToEnd(key, value);
      while |entries| > maxsize
        invariant DistinctKeys(entries)
        invariant Newest(entries, maxsize) == Stored(old(entries), key, value, maxsize)
      {
        entries := entries[1..];
      }
    }

    method Drop(key: K)
      requires Valid()
      modifies this`entries
      ensures Valid() && entries == Dropped(old(entries), key)
    {
      ghost var i := DroppedForm(entries, key);
      entries := Dropped(entries, key);
    }

    method Clear()
      modifies this`entries
      ensures Valid() && entries == []
    {
      entries := [];
    }
  }
}
