/**
 * The operations every wrapper variant performs on its dataset, as functions of the
 * dataset: the readers shared by all three variants, and the in-place updates of the
 * read-write variant, each giving the dataset as it is after the update.
 */
module Store {
  import opened Utils
  import opened Json

  /**
   * What every access to the dataset fails with before the first connect: the dataset is
   * still `undefined`, and indexing it or listing its keys throws a TypeError (whose
   * message depends on the access, so only the error's kind is kept).
   */
  const NOT_CONNECTED := "TypeError"

  /** The configuration error every variant raises when the item key is missing. */
  const KEY_NOT_PROVIDED := "Edge Config Item Key not provided"

  // The errors with which the read-only variants reject every mutation.
  const SET_NOT_IMPLEMENTED := "SET not implemented"
  const GET_AND_SET_NOT_IMPLEMENTED := "GET AND SET not implemented"
  const DEL_NOT_IMPLEMENTED := "DEL not implemented"
  const INCR_NOT_IMPLEMENTED := "INCR not implemented"
  const DECR_NOT_IMPLEMENTED := "DECR not implemented"
  const ADD_ITEMS_NOT_IMPLEMENTED := "ADD ITEMS not implemented"
  const REMOVE_ITEMS_NOT_IMPLEMENTED := "REMOVE ITEMS not implemented"

  /** `data[key] ?? null`: the raw stored value, or null when the key is absent. */
  function Get(d: Dataset, key: string): (r: Value)
    ensures !HasOwnProperty(d, key) ==> r == Null
  {
    if HasOwnProperty(d, key) then d.vals[key] else Null
  }

  /** Two datasets with the same key order and the same value under every key are equal. */
  lemma {:induction false} Extensionality(d: Dataset, e: Dataset)
    requires d.keys == e.keys
    requires forall k :: Get(d, k) == Get(e, k)
    ensures d == e
  {
    forall k | k in d.vals
      ensures k in e.vals && d.vals[k] == e.vals[k]
    {
      assert Get(d, k) == Get(e, k);
    }
    assert d.vals == e.vals;
  }

  /** `xs.filter(keep)`: the elements of `xs` that `keep` accepts, in their order. */
  function Filter(xs: seq<string>, keep: string -> bool): seq<string> {
    if xs == [] then [] else
      var rest := Filter(DropLast(xs), keep);
      if keep(Last(xs)) then rest + [Last(xs)] else rest
  }

  /** The test of `getKeysByPrefix`: `key.startsWith(prefix)`. */
  function HasPrefix(prefix: string): string -> bool {
    k => prefix <= k
  }

  /** The test that keeps every key but `key`. */
  function IsNot(key: string): string -> bool {
    k => k != key
  }

  /** The test of `removeItems`: `!items.includes(entry)`. */
  function NotIn(items: seq<string>): string -> bool {
    x => x !in items
  }

  /** A filter that accepts every element changes nothing. */
  lemma {:induction false} FilterAll(xs: seq<string>, keep: string -> bool)
    requires forall i | 0 <= i < |xs| :: keep(xs[i])
    ensures Filter(xs, keep) == xs
  {
    if xs != [] {
      FilterAll(DropLast(xs), keep);
      assert DropLast(xs) + [Last(xs)] == xs;
    }
  }

  /**
   * `filter` keeps exactly the accepted elements, each as often as it occurs, keeps their
   * order, and creates no duplicates.
   */
  lemma {:induction false} FilterSound(xs: seq<string>, keep: string -> bool)
    ensures forall x :: x in Filter(xs, keep) <==> x in xs && keep(x)
    ensures forall x :: multiset(Filter(xs, keep))[x] == if keep(x) then multiset(xs)[x] else 0
    ensures IsSubsequence(Filter(xs, keep), xs)
    ensures NoDuplicates(xs) ==> NoDuplicates(Filter(xs, keep))
  {
    if xs != [] {
      var p, x := DropLast(xs), Last(xs);
      assert xs == p + [x];
      assert multiset(xs) == multiset(p) + multiset{x};
      FilterSound(p, keep);
      var rest := Filter(p, keep);
      if keep(x) {
        assert multiset(rest + [x]) == multiset(rest) + multiset{x};
        assert DropLast(rest + [x]) == rest && Last(rest + [x]) == x;
      } else {
        SubsequenceExtend(rest, p, x);
      }
    }
  }

  /** Filtering a list extended by one element extends the filtered list exactly when that element is accepted. */
  lemma {:induction false} FilterAppend(xs: seq<string>, x: string, keep: string -> bool)
    ensures Filter(xs + [x], keep) == Filter(xs, keep) + (if keep(x) then [x] else [])
  {
    assert DropLast(xs + [x]) == xs && Last(xs + [x]) == x;
    assert Filter(xs, keep) + [] == Filter(xs, keep);
  }

  /**
   * `Object.keys(data).filter(key => key.startsWith(prefix))`: exactly the keys of the
   * dataset that start with `prefix`, each once, in insertion order.
   */
  function KeysByPrefix(d: Dataset, prefix: string): (r: seq<string>)
    ensures forall k :: k in r <==> HasOwnProperty(d, k) && prefix <= k
    ensures NoDuplicates(r)
    ensures IsSubsequence(r, d.keys)
  {
    FilterSound(d.keys, HasPrefix(prefix));
    Filter(d.keys, HasPrefix(prefix))
  }

  /** `keys.map(key => data[key] ?? null)`: one value per requested key, in the same order. */
  function GetMany(d: Dataset, keys: seq<string>): (r: seq<Value>)
    ensures |r| == |keys|
    ensures forall i | 0 <= i < |keys| :: r[i] == Get(d, keys[i])
  {
    if keys == [] then [] else [Get(d, keys[0])] + GetMany(d, keys[1..])
  }

  /** `hasOwnProperty(data, key) && Array.isArray(data[key])`: the key holds a set. */
  predicate IsSet(d: Dataset, key: string) {
    HasOwnProperty(d, key) && d.vals[key].StrList?
  }

  /** `itemContains`: the key holds a set and `item` is one of its members. */
  function ItemContains(d: Dataset, key: string, item: string): (r: bool)
    ensures r <==> Get(d, key).StrList? && item in Get(d, key).items
  {
    IsSet(d, key) && item in d.vals[key].items
  }

  /** `getItems`: the members of the set at `key`, or `[]` when the key holds no set. */
  function GetItems(d: Dataset, key: string): (r: seq<string>)
    ensures forall x :: x in r <==> ItemContains(d, key, x)
    ensures !Get(d, key).StrList? ==> r == []
    ensures Get(d, key).StrList? ==> r == Get(d, key).items
  {
    if IsSet(d, key) then d.vals[key].items else []
  }

  /**
   * `data[key] = v`: only `key` changes; a new key goes to the end of the key order and an
   * existing key keeps its place.
   */
  function Put(d: Dataset, key: string, v: Value): (r: Dataset)
    ensures Get(r, key) == v && HasOwnProperty(r, key)
    ensures forall k | k != key :: Get(r, k) == Get(d, k)
    ensures r.keys == if HasOwnProperty(d, key) then d.keys else d.keys + [key]
  {
    var keys := if key in d.vals then d.keys else d.keys + [key];
    var o := Object(keys, d.vals[key := v]);
    assert NoDuplicates(keys) by {
      if key !in d.vals {
        assert forall i | 0 <= i < |d.keys| :: keys[i] == d.keys[i];
      }
    }
    o
  }

  /** `delete data[key]`: the key is gone, every other key keeps its value and its place. */
  function Delete(d: Dataset, key: string): (r: Dataset)
    ensures Get(r, key) == Null && !HasOwnProperty(r, key)
    ensures forall k | k != key :: Get(r, k) == Get(d, k)
    ensures IsSubsequence(r.keys, d.keys)
  {
    FilterSound(d.keys, IsNot(key));
    Object(Filter(d.keys, IsNot(key)), d.vals - {key})
  }

  /**
   * `incr`: a number n becomes n + 1; an absent or non-numeric value becomes 1; no other
   * key changes.
   */
  function Incr(d: Dataset, key: string): (r: Dataset)
    ensures Get(r, key) == Num(if Get(d, key).Num? then Get(d, key).n + 1 else 1)
    ensures forall k | k != key :: Get(r, k) == Get(d, k)
    ensures r.keys == if HasOwnProperty(d, key) then d.keys else d.keys + [key]
  {
    var n := if HasOwnProperty(d, key) && d.vals[key].Num? then d.vals[key].n + 1 else 1;
    Put(d, key, Num(n))
  }

  /**
   * `decr`: a number n becomes n - 1; an absent or non-numeric value becomes -1; no other
   * key changes.
   */
  function Decr(d: Dataset, key: string): (r: Dataset)
    ensures Get(r, key) == Num(if Get(d, key).Num? then Get(d, key).n - 1 else -1)
    ensures forall k | k != key :: Get(r, k) == Get(d, k)
    ensures r.keys == if HasOwnProperty(d, key) then d.keys else d.keys + [key]
  {
    var n := if HasOwnProperty(d, key) && d.vals[key].Num? then d.vals[key].n - 1 else -1;
    Put(d, key, Num(n))
  }

  /**
   * `addItems`: the set at `key` becomes `unique([...set, ...items])`, or `unique(items)`
   * when the key holds no set (a value of another shape is overwritten). The result has no
   * duplicates, holds the old members and the new items and nothing else, and keeps the
   * old members first and in their order; no other key changes.
   */
  function AddItems(d: Dataset, key: string, items: seq<string>): (r: Dataset)
    ensures IsSet(r, key)
    ensures GetItems(r, key) == Unique(GetItems(d, key) + items)
    ensures NoDuplicates(GetItems(r, key))
    ensures forall x :: ItemContains(r, key, x) <==> ItemContains(d, key, x) || x in items
    ensures NoDuplicates(GetItems(d, key)) ==> GetItems(d, key) <= GetItems(r, key)
    ensures forall k | k != key :: Get(r, k) == Get(d, k)
    ensures r.keys == if HasOwnProperty(d, key) then d.keys else d.keys + [key]
  {
    var members := GetItems(d, key);
    var added := if IsSet(d, key) then Unique(members + items) else Unique(items);
    assert added == Unique(members + items) by {
      if !IsSet(d, key) { assert members + items == items; }
    }
    assert Elements(added) == Elements(members) + Elements(items);
    forall x
      ensures x in added <==> ItemContains(d, key, x) || x in items
    {
      assert x in added <==> x in Elements(added);
      assert x in members <==> x in Elements(members);
      assert x in items <==> x in Elements(items);
    }
    assert NoDuplicates(members) ==> members <= added by {
      if NoDuplicates(members) {
        UniquePrefix(members, items);
        UniqueOfDistinct(members);
      }
    }
    Put(d, key, StrList(added))
  }

  /**
   * `removeItems`: the set at `key` loses every listed item and keeps the others in their
   * order, each as often as before; when the key holds no set the dataset is unchanged.
   * The key order never changes.
   */
  function RemoveItems(d: Dataset, key: string, items: seq<string>): (r: Dataset)
    ensures !IsSet(d, key) ==> r == d
    ensures IsSet(d, key) ==> IsSet(r, key) && IsSubsequence(GetItems(r, key), GetItems(d, key))
    ensures forall x :: ItemContains(r, key, x) <==> ItemContains(d, key, x) && x !in items
    ensures IsSet(d, key) ==> forall x | x !in items ::
      multiset(GetItems(r, key))[x] == multiset(GetItems(d, key))[x]
    ensures forall k | k != key :: Get(r, k) == Get(d, k)
    ensures r.keys == d.keys
  {
    if IsSet(d, key) then
      FilterSound(d.vals[key].items, NotIn(items));
      Put(d, key, StrList(Filter(d.vals[key].items, NotIn(items))))
    else d
  }

  /** `addItems` twice with the same items is the same as once. */
  lemma {:induction false} AddItemsIdempotent(d: Dataset, key: string, items: seq<string>)
    ensures AddItems(AddItems(d, key, items), key, items) == AddItems(d, key, items)
  {
    var once := AddItems(d, key, items);
    var u := GetItems(once, key);
    UniqueAbsorb(u, items);
    var twice := AddItems(once, key, items);
    assert twice.keys == once.keys;
    assert twice.vals == once.vals;
  }

  /** Two writes to the same key: the last one wins, and the key keeps its place. */
  lemma {:induction false} PutPut(d: Dataset, key: string, v: Value, w: Value)
    ensures Put(Put(d, key, v), key, w) == Put(d, key, w)
  {
    var r := Put(Put(d, key, v), key, w);
    assert r.vals == Put(d, key, w).vals;
  }

  /** Writing a key the dataset lacks and deleting it again gives back the very same dataset. */
  lemma {:induction false} PutThenDelete(d: Dataset, key: string, v: Value)
    requires !HasOwnProperty(d, key)
    ensures Delete(Put(d, key, v), key) == d
  {
    var r := Delete(Put(d, key, v), key);
    FilterAppend(d.keys, key, IsNot(key));
    FilterAll(d.keys, IsNot(key));
    assert r.keys == d.keys;
    assert r.vals == d.vals;
  }

  /** `incr` followed by `decr` on a counter gives back the very same dataset. */
  lemma {:induction false} IncrThenDecr(d: Dataset, key: string)
    requires Get(d, key).Num?
    ensures Decr(Incr(d, key), key) == d
  {
    var r := Decr(Incr(d, key), key);
    assert r.keys == d.keys;
    assert r.vals == d.vals;
  }

  /** `incr` applied `n` times. */
  function IncrTimes(d: Dataset, key: string, n: nat): Dataset {
    if n == 0 then d else Incr(IncrTimes(d, key, n - 1), key)
  }

  /** `decr` applied `n` times. */
  function DecrTimes(d: Dataset, key: string, n: nat): Dataset {
    if n == 0 then d else Decr(DecrTimes(d, key, n - 1), key)
  }

  /** After `n` increments a counter holds its old value plus `n`, or `n` if it held none. */
  lemma {:induction false} IncrTimesValue(d: Dataset, key: string, n: nat)
    requires n > 0 || Get(d, key).Num?
    ensures Get(IncrTimes(d, key, n), key) == Num(if Get(d, key).Num? then Get(d, key).n + n else n)
    ensures forall k | k != key :: Get(IncrTimes(d, key, n), k) == Get(d, k)
  {
    if n > 1 || (n == 1 && Get(d, key).Num?) {
      IncrTimesValue(d, key, n - 1);
    }
  }

  /** After `n` decrements a counter holding m holds m - n. */
  lemma {:induction false} DecrTimesValue(d: Dataset, key: string, n: nat)
    requires Get(d, key).Num?
    ensures Get(DecrTimes(d, key, n), key) == Num(Get(d, key).n - n)
    ensures forall k | k != key :: Get(DecrTimes(d, key, n), k) == Get(d, k)
  {
    if n > 0 {
      DecrTimesValue(d, key, n - 1);
    }
  }

  /**
   * Counting up `n` times and down `n` times from a key that holds no number (absent, or a
   * string or list that the first `incr` overwrites) leaves the counter at 0 and every other
   * key as it was.
   */
  lemma {:induction false} CounterRoundTrip(d: Dataset, key: string, n: nat)
    requires !Get(d, key).Num? && n > 0
    ensures Get(DecrTimes(IncrTimes(d, key, n), key, n), key) == Num(0)
    ensures forall k | k != key :: Get(DecrTimes(IncrTimes(d, key, n), key, n), k) == Get(d, k)
  {
    IncrTimesValue(d, key, n);
    DecrTimesValue(IncrTimes(d, key, n), key, n);
  }

  /** Adding `["a", "b"]` to a fresh key and then removing `["a"]` leaves `["b"]`. */
  lemma AddThenRemove(d: Dataset, key: string)
    requires !HasOwnProperty(d, key)
    ensures GetItems(RemoveItems(AddItems(d, key, ["a", "b"]), key, ["a"]), key) == ["b"]
  {
    UniqueOfDistinct(["a", "b"]);
    var added := AddItems(d, key, ["a", "b"]);
    assert GetItems(added, key) == ["a", "b"];
  }
}
