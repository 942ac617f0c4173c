/** Python dictionaries as insertion-ordered association lists: a key keeps
    the position of its first insertion, and assigning to it again replaces
    its value in place. */
module Dicts {
  import opened Outcomes

  type Dict<K, V> = seq<(K, V)>

  ghost predicate KeysDistinct<K, V>(d: Dict<K, V>) {
    forall i, j :: 0 <= i < j < |d| ==> d[i].0 != d[j].0
  }

  /** `d.get(key)`: `None` for a missing key. */
  function Find<K(==), V>(d: Dict<K, V>, key: K): (r: Option<V>)
    ensures r.None? <==> forall i :: 0 <= i < |d| ==> d[i].0 != key
    ensures r.Some? ==> (key, r.value) in d
  {
    if d == [] then None
    else if d[0].0 == key then Some(d[0].1)
    else Find(d[1..], key)
  }

  /** `d.get(key, default)` */
  function FindOr<K(==), V>(d: Dict<K, V>, key: K, default: V): V {
    Find(d, key).GetOr(default)
  }

  /** `d[key] = value` */
  function Put<K(==), V>(d: Dict<K, V>, key: K, value: V): (r: Dict<K, V>)
    ensures |r| == |d| || |r| == |d| + 1
  {
    if d == [] then [(key, value)]
    else if d[0].0 == key then [(key, value)] + d[1..]
    else [d[0]] + Put(d[1..], key, value)
  }

  /** Reading back after an assignment gives the assigned value for that key
      and leaves every other key as it was. */
  lemma {:induction false} PutFind<K, V>(d: Dict<K, V>, key: K, value: V, k: K)
    ensures Find(Put(d, key, value), k) == if k == key then Some(value) else Find(d, k)
  {
    if d != [] && d[0].0 != key {
      PutFind(d[1..], key, value, k);
    }
  }

  /** A new key goes to the end. */
  lemma {:induction false} PutNew<K, V>(d: Dict<K, V>, key: K, value: V)
    requires forall i :: 0 <= i < |d| ==> d[i].0 != key
    ensures Put(d, key, value) == d + [(key, value)]
  {
    if d != [] {
      assert forall i :: 0 <= i < |d[1..]| ==> d[1..][i].0 != key by {
        forall i | 0 <= i < |d[1..]| ensures d[1..][i].0 != key {
          assert d[1..][i] == d[i + 1];
        }
      }
      PutNew(d[1..], key, value);
      assert [d[0]] + (d[1..] + [(key, value)]) == d + [(key, value)];
    }
  }

  /** An existing key stays where it first occurs. */
  lemma {:induction false} PutExisting<K, V>(d: Dict<K, V>, key: K, value: V, i: nat)
    requires i < |d| && d[i].0 == key && forall j :: 0 <= j < i ==> d[j].0 != key
    ensures Put(d, key, value) == d[i := (key, value)]
  {
    if i == 0 {
      assert [(key, value)] + d[1..] == d[0 := (key, value)];
    } else {
      assert d[1..][i - 1].0 == key;
      assert forall j :: 0 <= j < i - 1 ==> d[1..][j].0 != key by {
        forall j | 0 <= j < i - 1 ensures d[1..][j].0 != key {
          assert d[1..][j] == d[j + 1];
        }
      }
      PutExisting(d[1..], key, value, i - 1);
      assert [d[0]] + d[1..][i - 1 := (key, value)] == d[i := (key, value)];
    }
  }

  /** The keys of a dictionary built by assignments are distinct. */
  lemma {:induction false} PutKeysDistinct<K, V>(d: Dict<K, V>, key: K, value: V)
    requires KeysDistinct(d)
    ensures KeysDistinct(Put(d, key, value))
  {
    if i :| 0 <= i < |d| && d[i].0 == key {
      var i0 := FirstKey(d, key, i);
      PutExisting(d, key, value, i0);
    } else {
      PutNew(d, key, value);
    }
  }

  lemma {:induction false} FirstKey<K, V>(d: Dict<K, V>, key: K, i: nat) returns (i0: nat)
    requires i < |d| && d[i].0 == key
    ensures i0 <= i && d[i0].0 == key && forall j :: 0 <= j < i0 ==> d[j].0 != key
  {
    if d[0].0 == key {
      i0 := 0;
    } else {
      var i1 := FirstKey(d[1..], key, i - 1);
      i0 := i1 + 1;
    }
  }

  /** The dictionary a loop `for k, v in items: d[k] = v` builds from an
      empty one. */
  function FromItems<K(==), V>(items: seq<(K, V)>): (d: Dict<K, V>)
    ensures |d| <= |items|
  {
    if items == [] then []
    else Put(FromItems(items[..|items| - 1]), items[|items| - 1].0, items[|items| - 1].1)
  }

  /** The value of the last item with key `k`. */
  function LastValue<K(==), V>(items: seq<(K, V)>, k: K): (r: Option<V>)
    ensures r.None? <==> forall i :: 0 <= i < |items| ==> items[i].0 != k
  {
    if items == [] then None
    else if items[|items| - 1].0 == k then Some(items[|items| - 1].1)
    else LastValue(items[..|items| - 1], k)
  }

  /** A later item overwrites an earlier one with the same key, and the
      resulting keys are distinct. */
  lemma {:induction false} FromItemsFind<K, V>(items: seq<(K, V)>, k: K)
    ensures Find(FromItems(items), k) == LastValue(items, k)
    ensures KeysDistinct(FromItems(items))
  {
    if items != [] {
      var init, last := items[..|items| - 1], items[|items| - 1];
      FromItemsFind(init, k);
      PutFind(FromItems(init), last.0, last.1, k);
      PutKeysDistinct(FromItems(init), last.0, last.1);
    }
  }
}
