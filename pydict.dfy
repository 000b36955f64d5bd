/**
 * A Python `dict`: insertion-ordered key/value pairs with distinct keys.
 * Assigning an existing key overwrites its value in place; a new key goes
 * to the end.
 */
module PyDict {
  import opened Wrappers

  type Dict<K, V> = seq<(K, V)>

  predicate UniqueKeys<K(==), V>(d: Dict<K, V>) {
    forall i, j :: 0 <= i < j < |d| ==> d[i].0 != d[j].0
  }

  function Keys<K, V>(d: Dict<K, V>): (r: seq<K>)
    ensures |r| == |d|
    ensures forall i :: 0 <= i < |d| ==> r[i] == d[i].0
  {
    seq(|d|, i requires 0 <= i < |d| => d[i].0)
  }

  /** `k in d` */
  predicate HasKey<K(==), V>(d: Dict<K, V>, k: K) {
    exists i :: 0 <= i < |d| && d[i].0 == k
  }

  /** `d.get(k)`: the value stored under `k`, if any. */
  function Get<K(==), V>(d: Dict<K, V>, k: K): Option<V> {
    if d == [] then None
    else if d[0].0 == k then Some(d[0].1)
    else Get(d[1..], k)
  }

  /** `d.get(k, default)` */
  function GetOr<K(==), V>(d: Dict<K, V>, k: K, default: V): V {
    Get(d, k).GetOr(default)
  }

  /** `d[k] = v` */
  function Put<K(==), V>(d: Dict<K, V>, k: K, v: V): Dict<K, V> {
    if d == [] then [(k, v)]
    else if d[0].0 == k then [(k, v)] + d[1..]
    else [d[0]] + Put(d[1..], k, v)
  }

  lemma {:induction false} HasKeyTail<K, V>(d: Dict<K, V>, k: K)
    requires d != [] && d[0].0 != k
    ensures HasKey(d, k) <==> HasKey(d[1..], k)
  {
    if HasKey(d, k) {
      var i :| 0 <= i < |d| && d[i].0 == k;
      assert d[1..][i - 1].0 == k;
    }
    if HasKey(d[1..], k) {
      var i :| 0 <= i < |d| - 1 && d[1..][i].0 == k;
      assert d[i + 1].0 == k;
    }
  }

  /** A lookup succeeds exactly for the keys present, and yields a stored pair. */
  lemma {:induction false} GetSome<K, V>(d: Dict<K, V>, k: K)
    ensures Get(d, k).Some? <==> HasKey(d, k)
    ensures Get(d, k).Some? ==> (k, Get(d, k).value) in d
  {
    if d != [] && d[0].0 != k {
      GetSome(d[1..], k);
      HasKeyTail(d, k);
      if Get(d, k).Some? {
        assert (k, Get(d, k).value) in d[1..];
      }
    } else if d != [] {
      assert d[0] == (k, Get(d, k).value);
    }
  }

  /** Assignment overwrites a present key where it stands and appends a new key at the end. */
  lemma {:induction false} PutShape<K, V>(d: Dict<K, V>, k: K, v: V)
    ensures HasKey(d, k) ==> Keys(Put(d, k, v)) == Keys(d)
    ensures !HasKey(d, k) ==> Put(d, k, v) == d + [(k, v)]
    ensures HasKey(Put(d, k, v), k)
  {
    PutStored(d, k, v);
    if HasKey(d, k) {
      PutKeepsKeys(d, k, v);
    } else {
      PutAppends(d, k, v);
    }
  }

  lemma {:induction false} PutStored<K, V>(d: Dict<K, V>, k: K, v: V)
    ensures HasKey(Put(d, k, v), k)
  {
    var r := Put(d, k, v);
    if d == [] || d[0].0 == k {
      assert r[0].0 == k;
    } else {
      PutStored(d[1..], k, v);
      var t := Put(d[1..], k, v);
      var i :| 0 <= i < |t| && t[i].0 == k;
      assert r[i + 1].0 == k;
    }
  }

  lemma {:induction false} PutKeepsKeys<K, V>(d: Dict<K, V>, k: K, v: V)
    requires HasKey(d, k)
    ensures Keys(Put(d, k, v)) == Keys(d)
  {
    var r := Put(d, k, v);
    if d[0].0 == k {
      assert forall i :: 0 < i < |d| ==> r[i] == d[i];
    } else {
      HasKeyTail(d, k);
      PutKeepsKeys(d[1..], k, v);
      var t := Put(d[1..], k, v);
      assert r == [d[0]] + t;
      forall j | 0 < j < |r| ensures r[j].0 == d[j].0 {
        assert r[j] == t[j - 1];
        assert Keys(t)[j - 1] == Keys(d[1..])[j - 1];
      }
    }
  }

  lemma {:induction false} PutAppends<K, V>(d: Dict<K, V>, k: K, v: V)
    requires !HasKey(d, k)
    ensures Put(d, k, v) == d + [(k, v)]
  {
    if d != [] {
      assert d[0].0 != k;
      HasKeyTail(d, k);
      PutAppends(d[1..], k, v);
      assert d == [d[0]] + d[1..];
    }
  }

  /** Assigning a key that is not present appends it. */
  lemma {:induction false} PutNew<K, V>(d: Dict<K, V>, k: K, v: V)
    requires forall j :: 0 <= j < |d| ==> d[j].0 != k
    ensures Put(d, k, v) == d + [(k, v)]
  {
    PutShape(d, k, v);
  }

  /** Assignment keeps the keys distinct. */
  lemma {:induction false} PutUnique<K, V>(d: Dict<K, V>, k: K, v: V)
    requires UniqueKeys(d)
    ensures UniqueKeys(Put(d, k, v))
  {
    PutShape(d, k, v);
    var r := Put(d, k, v);
    if HasKey(d, k) {
      forall i, j | 0 <= i < j < |r| ensures r[i].0 != r[j].0 {
        assert Keys(r)[i] == Keys(d)[i] && Keys(r)[j] == Keys(d)[j];
      }
    } else {
      forall i, j | 0 <= i < j < |r| ensures r[i].0 != r[j].0 {
        if j == |d| {
          assert r[i] == d[i];
        }
      }
    }
  }

  /** Reading back a stored key gives the stored value; other keys are unaffected. */
  lemma {:induction false} GetPut<K, V>(d: Dict<K, V>, k: K, v: V, k2: K)
    ensures Get(Put(d, k, v), k2) == if k2 == k then Some(v) else Get(d, k2)
  {
    var r := Put(d, k, v);
    if d != [] && d[0].0 != k {
      GetPut(d[1..], k, v, k2);
      assert r[0] == d[0] && r[1..] == Put(d[1..], k, v);
    } else if d != [] {
      assert r[1..] == d[1..];
    }
  }

  /** Lookup in a dict that starts with a given pair. */
  lemma {:induction false} GetCons<K, V>(p: (K, V), rest: Dict<K, V>, k: K)
    ensures Get([p] + rest, k) == if p.0 == k then Some(p.1) else Get(rest, k)
  {
    assert ([p] + rest)[1..] == rest;
  }

  /** Lookup of a key at its first position. */
  lemma {:induction false} GetFirstAt<K, V>(d: Dict<K, V>, i: nat)
    requires i < |d| && forall j :: 0 <= j < i ==> d[j].0 != d[i].0
    ensures Get(d, d[i].0) == Some(d[i].1)
  {
    if i > 0 {
      assert d[1..][i - 1] == d[i];
      GetFirstAt(d[1..], i - 1);
    }
  }
}
