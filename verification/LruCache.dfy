/** The bounded cache of the matcher (`_BestEffortLruCache`, pkg/chars_matcher/pinyin_chars_matcher.py), used by one thread. */
module LruCache {
  import opened Prelude
  import opened StableSort

  /** `move_to_end`. */
  function Touch<K(==)>(keys: seq<K>, key: K): seq<K> {
    Without(keys, key) + [key]
  }

  function Without<K(==)>(keys: seq<K>, key: K): (r: seq<K>)
    ensures |r| <= |keys|
    ensures key in keys ==> |r| < |keys|
  {
    if keys == [] then []
    else Without(keys[..|keys| - 1], key) + (if keys[|keys| - 1] == key then [] else [keys[|keys| - 1]])
  }

  lemma {:induction false} WithoutElements<K>(keys: seq<K>, key: K)
    requires NoDuplicates(keys)
    ensures NoDuplicates(Without(keys, key))
    ensures forall k :: k in Without(keys, key) <==> k in keys && k != key
    ensures |Without(keys, key)| == if key in keys then |keys| - 1 else |keys|
  {
    if keys != [] {
      var front, last := keys[..|keys| - 1], keys[|keys| - 1];
      WithoutElements(front, key);
      assert last !in front;
      assert forall k :: k in keys <==> k in front || k == last;
    }
  }

  /** The order of use after a use of `key`, the least recently used first, within the bound. */
  function Recent<K(==)>(keys: seq<K>, key: K, maxSize: nat): (r: seq<K>) {
    var touched := Touch(keys, key);
    if |touched| > maxSize then touched[1..] else touched
  }

  lemma RecentElements<K>(keys: seq<K>, key: K, maxSize: nat)
    requires NoDuplicates(keys) && |keys| <= maxSize
    ensures var touched, recent := Touch(keys, key), Recent(keys, key, maxSize);
      && NoDuplicates(touched) && NoDuplicates(recent) && |recent| <= maxSize
      && (forall k :: k in touched <==> k in keys || k == key)
      && (forall k :: k in recent <==> k in touched && !(|touched| > maxSize && k == touched[0]))
  {
    WithoutElements(keys, key);
    var touched := Touch(keys, key);
    assert forall k :: k in touched <==> k in Without(keys, key) || k == key;
    assert touched == [touched[0]] + touched[1..];
  }

  /** An insertion-ordered dictionary: `keys` is its order, the least recently used first. */
  class Cache<K(==, !new), V> {
    const maxSize: nat
    var keys: seq<K>
    var values: map<K, V>

    constructor (maxSize: nat)
      ensures Valid() && this.maxSize == maxSize && values == map[]
    {
      this.maxSize, keys, values := maxSize, [], map[];
    }

    /** The bound, and one place in the order for each key. */
    ghost predicate Valid()
      reads this
    {
      NoDuplicates(keys) && |keys| <= maxSize && (forall k :: k in keys <==> k in values)
    }

    /** A hit returns what was stored and makes the key the most recent; a miss changes nothing. */
    method Get(key: K) returns (r: Option<V>)
      requires Valid()
      modifies this`keys
      ensures Valid()
      ensures r == if key in values then Some(values[key]) else None
      ensures keys == if key in values then Touch(old(keys), key) else old(keys)
    {
      if key !in values {
        return None;
      }
      WithoutElements(keys, key);
      keys := Touch(keys, key);
      assert forall k :: k in keys <==> k in Without(old(keys), key) || k == key;
      return Some(values[key]);
    }

    /** The key is stored as the most recent; over the bound, exactly the least recently used key leaves. */
    method Set(key: K, value: V)
      requires Valid()
      modifies this
      ensures Valid()
      ensures keys == Recent(old(keys), key, maxSize)
      ensures values == map k | k in old(values)[key := value] && k in keys :: old(values)[key := value][k]
    {
      RecentElements(keys, key, maxSize);
      ghost var touched := Touch(keys, key);
      values := values[key := value];
      keys := Touch(keys, key);
      if |keys| > maxSize {
        values := values - {keys[0]};
        keys := keys[1..];
      }
    }
  }
}
