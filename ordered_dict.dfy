/** Python's `dict`: entries kept in insertion order, one entry per key. */
module OrderedDict {
  import opened Wrappers

  /** A dict as its (key, value) entries, in the order the keys were first inserted. */
  type Dict<K, V> = seq<(K, V)>

  function Keys<K, V>(d: Dict<K, V>): (ks: seq<K>)
    ensures |ks| == |d|
    ensures forall i :: 0 <= i < |d| ==> ks[i] == d[i].0
  {
    seq(|d|, i requires 0 <= i < |d| => d[i].0)
  }

  predicate DistinctKeys<K(==,!new), V(!new)>(d: Dict<K, V>) {
    forall i, j :: 0 <= i < j < |d| ==> d[i].0 != d[j].0
  }

  /** `d.get(k)`. */
  function Get<K(==,!new), V(!new)>(d: Dict<K, V>, k: K): (r: Option<V>)
    ensures r.Some? <==> k in Keys(d)
  {
    if |d| == 0 then None
    else if d[0].0 == k then Some(d[0].1)
    else
      var r := Get(d[1..], k);
      assert Keys(d) == [d[0].0] + Keys(d[1..]);
      r
  }

  /** `d[k] = v`: a present key keeps its position and takes the new value; a new key goes last. */
  function Insert<K(==,!new), V(!new)>(d: Dict<K, V>, k: K, v: V): (r: Dict<K, V>)
    requires DistinctKeys(d)
    ensures DistinctKeys(r)
    ensures k in Keys(d) ==> Keys(r) == Keys(d)
    ensures k !in Keys(d) ==> Keys(r) == Keys(d) + [k]
    ensures Get(r, k) == Some(v)
    ensures forall k' :: k' != k ==> Get(r, k') == Get(d, k')
  {
    if |d| == 0 then [(k, v)]
    else if d[0].0 == k then
      InsertReplacesFirst(d, k, v);
      [(k, v)] + d[1..]
    else
      var rest := Insert(d[1..], k, v);
      InsertBehindFirst(d, k, v, rest);
      [d[0]] + rest
  }

  /** Inserting the first entry's key replaces that entry's value. */
  lemma InsertReplacesFirst<K(!new), V(!new)>(d: Dict<K, V>, k: K, v: V)
    requires DistinctKeys(d) && |d| > 0 && d[0].0 == k
    ensures var r := [(k, v)] + d[1..];
      && DistinctKeys(r)
      && Keys(r) == Keys(d)
      && Get(r, k) == Some(v)
      && forall k' :: k' != k ==> Get(r, k') == Get(d, k')
  {
    var x := d[0];
    var t := d[1..];
    ConsSplit(d);
    KeysCons(x, t);
    KeysCons((k, v), t);
    GetConsAll((k, v), t);
    GetConsAll(x, t);
    DistinctCons(x, t);
    DistinctCons((k, v), t);
  }

  /** Inserting any other key leaves the first entry in front of the insertion into the rest. */
  lemma InsertBehindFirst<K(!new), V(!new)>(d: Dict<K, V>, k: K, v: V, rest: Dict<K, V>)
    requires DistinctKeys(d) && |d| > 0 && d[0].0 != k
    requires DistinctKeys(rest)
    requires k in Keys(d[1..]) ==> Keys(rest) == Keys(d[1..])
    requires k !in Keys(d[1..]) ==> Keys(rest) == Keys(d[1..]) + [k]
    requires Get(rest, k) == Some(v)
    requires forall k' :: k' != k ==> Get(rest, k') == Get(d[1..], k')
    ensures var r := [d[0]] + rest;
      && DistinctKeys(r)
      && (k in Keys(d) ==> Keys(r) == Keys(d))
      && (k !in Keys(d) ==> Keys(r) == Keys(d) + [k])
      && Get(r, k) == Some(v)
      && forall k' :: k' != k ==> Get(r, k') == Get(d, k')
  {
    ConsSplit(d);
    InsertBehindKeys(d[0], d[1..], k, rest);
    InsertBehindGet(d[0], d[1..], k, v, rest);
  }

  lemma InsertBehindKeys<K(!new), V(!new)>(x: (K, V), t: Dict<K, V>, k: K, rest: Dict<K, V>)
    requires DistinctKeys([x] + t) && x.0 != k
    requires DistinctKeys(rest)
    requires k in Keys(t) ==> Keys(rest) == Keys(t)
    requires k !in Keys(t) ==> Keys(rest) == Keys(t) + [k]
    ensures DistinctKeys([x] + rest)
    ensures k in Keys([x] + t) ==> Keys([x] + rest) == Keys([x] + t)
    ensures k !in Keys([x] + t) ==> Keys([x] + rest) == Keys([x] + t) + [k]
  {
    KeysCons(x, t);
    KeysCons(x, rest);
    DistinctCons(x, t);
    assert x.0 !in Keys(rest);
    DistinctCons(x, rest);
  }

  lemma InsertBehindGet<K(!new), V(!new)>(x: (K, V), t: Dict<K, V>, k: K, v: V, rest: Dict<K, V>)
    requires x.0 != k
    requires Get(rest, k) == Some(v)
    requires forall k' :: k' != k ==> Get(rest, k') == Get(t, k')
    ensures Get([x] + rest, k) == Some(v)
    ensures forall k' :: k' != k ==> Get([x] + rest, k') == Get([x] + t, k')
  {
    GetConsAll(x, rest);
    GetConsAll(x, t);
  }

  lemma ConsSplit<T>(d: seq<T>)
    requires |d| > 0
    ensures d == [d[0]] + d[1..]
  {
  }

  lemma KeysCons<K, V>(x: (K, V), t: Dict<K, V>)
    ensures Keys([x] + t) == [x.0] + Keys(t)
  {
  }

  lemma DistinctCons<K(!new), V(!new)>(x: (K, V), t: Dict<K, V>)
    ensures DistinctKeys([x] + t) <==> x.0 !in Keys(t) && DistinctKeys(t)
  {
    var d := [x] + t;
    if DistinctKeys(d) {
      forall i, j | 0 <= i < j < |t| ensures t[i].0 != t[j].0 {
        assert t[i] == d[i + 1] && t[j] == d[j + 1];
      }
      forall j | 0 <= j < |t| ensures Keys(t)[j] != x.0 {
        assert t[j] == d[j + 1] && d[0] == x;
        assert d[0].0 != d[j + 1].0;
      }
    }
    if x.0 !in Keys(t) && DistinctKeys(t) {
      forall i, j | 0 <= i < j < |d| ensures d[i].0 != d[j].0 {
        if i == 0 {
          assert d[j] == t[j - 1];
          assert Keys(t)[j - 1] == t[j - 1].0;
        } else {
          assert d[i] == t[i - 1] && d[j] == t[j - 1];
        }
      }
    }
  }

  lemma GetConsAll<K(!new), V(!new)>(x: (K, V), t: Dict<K, V>)
    ensures forall k :: Get([x] + t, k) == if x.0 == k then Some(x.1) else Get(t, k)
  {
    assert ([x] + t)[1..] == t;
  }

  /** `{k: v for k, v in pairs}`. */
  function FromList<K(==,!new), V(!new)>(pairs: seq<(K, V)>): (r: Dict<K, V>)
    ensures DistinctKeys(r)
    ensures forall k :: k in Keys(r) <==> exists i :: 0 <= i < |pairs| && pairs[i].0 == k
    ensures forall k, v :: Get(r, k) == Some(v) <==> LastValueAt(pairs, k, v)
    decreases |pairs|
  {
    if |pairs| == 0 then []
    else
      var n := |pairs| - 1;
      var prev := FromList(pairs[..n]);
      var r := Insert(prev, pairs[n].0, pairs[n].1);
      FromListStep(pairs, prev, r);
      r
  }

  lemma FromListStep<K(!new), V(!new)>(pairs: seq<(K, V)>, prev: Dict<K, V>, r: Dict<K, V>)
    requires |pairs| > 0
    requires DistinctKeys(prev)
    requires var n := |pairs| - 1;
      && (forall k :: k in Keys(prev) <==> exists i :: 0 <= i < n && pairs[..n][i].0 == k)
      && (forall k, v :: Get(prev, k) == Some(v) <==> LastValueAt(pairs[..n], k, v))
      && r == Insert(prev, pairs[n].0, pairs[n].1)
    ensures forall k :: k in Keys(r) <==> exists i :: 0 <= i < |pairs| && pairs[i].0 == k
    ensures forall k, v :: Get(r, k) == Some(v) <==> LastValueAt(pairs, k, v)
  {
    forall k, v ensures Get(r, k) == Some(v) <==> LastValueAt(pairs, k, v) {
      LastValueStep(pairs, k, v);
    }
    var n := |pairs| - 1;
    forall k ensures k in Keys(r) <==> exists i :: 0 <= i < |pairs| && pairs[i].0 == k {
      assert k in Keys(r) <==> k in Keys(prev) || k == pairs[n].0;
      FromListKeyStep(pairs, prev, r, k);
    }
  }

  lemma FromListKeyStep<K(!new), V(!new)>(pairs: seq<(K, V)>, prev: Dict<K, V>, r: Dict<K, V>, k: K)
    requires |pairs| > 0
    requires var n := |pairs| - 1;
      && (k in Keys(prev) <==> exists i :: 0 <= i < n && pairs[..n][i].0 == k)
      && (k in Keys(r) <==> k in Keys(prev) || k == pairs[n].0)
    ensures k in Keys(r) <==> exists i :: 0 <= i < |pairs| && pairs[i].0 == k
  {
    var n := |pairs| - 1;
    if k in Keys(r) && k != pairs[n].0 {
      assert k in Keys(prev);
      var i :| 0 <= i < n && pairs[..n][i].0 == k;
      assert pairs[i].0 == k;
    }
    if exists i :: 0 <= i < |pairs| && pairs[i].0 == k {
      var i :| 0 <= i < |pairs| && pairs[i].0 == k;
      if i < n {
        assert pairs[..n][i].0 == k;
      }
    }
  }

  /** `v` is the value of the last pair in `pairs` whose key is `k`. */
  ghost predicate LastValueAt<K(!new), V(!new)>(pairs: seq<(K, V)>, k: K, v: V) {
    exists i :: 0 <= i < |pairs| && pairs[i] == (k, v) && forall j :: i < j < |pairs| ==> pairs[j].0 != k
  }

  lemma LastValueStep<K(!new), V(!new)>(pairs: seq<(K, V)>, k: K, v: V)
    requires |pairs| > 0
    ensures var n := |pairs| - 1;
      LastValueAt(pairs, k, v) <==>
        (if pairs[n].0 == k then pairs[n].1 == v else LastValueAt(pairs[..n], k, v))
  {
    var n := |pairs| - 1;
    if pairs[n].0 != k {
      if LastValueAt(pairs, k, v) {
        var i :| 0 <= i < |pairs| && pairs[i] == (k, v) && forall j :: i < j < |pairs| ==> pairs[j].0 != k;
        assert pairs[..n][i] == (k, v);
      }
      if LastValueAt(pairs[..n], k, v) {
        var i :| 0 <= i < n && pairs[..n][i] == (k, v) && forall j :: i < j < n ==> pairs[..n][j].0 != k;
        assert forall j :: i < j < n ==> pairs[j].0 == pairs[..n][j].0;
      }
    } else if pairs[n].1 == v {
      assert pairs[n] == (k, v);
    }
  }
}
