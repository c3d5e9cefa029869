/** Python dictionaries whose iteration order is observable, modelled as
    ordered association lists.  `Put` behaves like `d[k] = v`: an existing
    key keeps its position, a new key goes to the end. */
module Dicts {
  import opened Wrappers

  type Dict<V> = seq<(string, V)>

  function Keys<V>(d: Dict<V>): (r: seq<string>)
    ensures |r| == |d|
    ensures forall i :: 0 <= i < |d| ==> r[i] == d[i].0
  {
    if d == [] then [] else [d[0].0] + Keys(d[1..])
  }

  function Values<V>(d: Dict<V>): (r: seq<V>)
    ensures |r| == |d|
    ensures forall i :: 0 <= i < |d| ==> r[i] == d[i].1
  {
    if d == [] then [] else [d[0].1] + Values(d[1..])
  }

  lemma KeysAppend<V>(d: Dict<V>, e: Dict<V>)
    ensures Keys(d + e) == Keys(d) + Keys(e)
  {
  }

  predicate HasKey<V>(d: Dict<V>, k: string)
  {
    exists i :: 0 <= i < |d| && d[i].0 == k
  }

  /** No key occurs twice, as in every real dictionary. */
  predicate DistinctKeys<V>(d: Dict<V>)
  {
    forall i, j :: 0 <= i < j < |d| ==> d[i].0 != d[j].0
  }

  /** Position of key `k`, if it is present. */
  function IndexOf<V>(d: Dict<V>, k: string): (r: Option<nat>)
    ensures r.Some? <==> HasKey(d, k)
    ensures r.Some? ==> r.value < |d| && d[r.value].0 == k
    ensures r.Some? ==> forall i :: 0 <= i < r.value ==> d[i].0 != k
  {
    if d == [] then None
    else if d[0].0 == k then Some(0)
    else match IndexOf(d[1..], k)
      case None => None
      case Some(i) => Some(i + 1)
  }

  /** `d.get(k)` */
  function Get<V>(d: Dict<V>, k: string): (r: Option<V>)
    ensures r.Some? <==> HasKey(d, k)
    ensures r.Some? ==> exists i :: 0 <= i < |d| && d[i] == (k, r.value)
  {
    match IndexOf(d, k)
    case None => None
    case Some(i) => Some(d[i].1)
  }

  /** `d[k] = v` */
  function Put<V>(d: Dict<V>, k: string, v: V): (r: Dict<V>)
    ensures Get(r, k) == Some(v)
    ensures HasKey(d, k) ==> |r| == |d| && Keys(r) == Keys(d)
    ensures !HasKey(d, k) ==> r == d + [(k, v)]
    ensures forall k' :: k' != k ==> Get(r, k') == Get(d, k')
    ensures DistinctKeys(d) ==> DistinctKeys(r)
  {
    match IndexOf(d, k)
    case None =>
      PutNewKey(d, k, v);
      d + [(k, v)]
    case Some(i) =>
      var r := d[i := (k, v)];
      PutOldKey(d, i, k, v);
      r
  }

  lemma PutNewKey<V>(d: Dict<V>, k: string, v: V)
    requires !HasKey(d, k)
    ensures Get(d + [(k, v)], k) == Some(v)
    ensures forall k' :: k' != k ==> Get(d + [(k, v)], k') == Get(d, k')
    ensures DistinctKeys(d) ==> DistinctKeys(d + [(k, v)])
  {
    var r := d + [(k, v)];
    forall k' | k' != k ensures Get(r, k') == Get(d, k') {
      var a, b := IndexOf(r, k'), IndexOf(d, k');
      if b.Some? { assert r[b.value] == d[b.value]; }
      if a.Some? { assert a.value < |d|; assert r[a.value] == d[a.value]; }
    }
    var e := IndexOf(r, k);
    assert r[|d|].0 == k;
    assert e.Some? && e.value == |d|;
  }

  lemma PutOldKey<V>(d: Dict<V>, i: nat, k: string, v: V)
    requires i < |d| && d[i].0 == k
    requires forall j :: 0 <= j < i ==> d[j].0 != k
    ensures Get(d[i := (k, v)], k) == Some(v)
    ensures Keys(d[i := (k, v)]) == Keys(d)
    ensures forall k' :: k' != k ==> Get(d[i := (k, v)], k') == Get(d, k')
    ensures DistinctKeys(d) ==> DistinctKeys(d[i := (k, v)])
  {
    var r := d[i := (k, v)];
    SameKeys(d, r);
    forall k' | k' != k ensures Get(r, k') == Get(d, k') {
      SameIndex(d, r, k');
      var b := IndexOf(d, k');
      if b.Some? { assert b.value != i; }
    }
    SameIndex(d, r, k);
  }

  /** Dictionaries whose keys agree position by position. */
  lemma SameKeys<V>(d: Dict<V>, r: Dict<V>)
    requires |d| == |r| && forall j :: 0 <= j < |d| ==> d[j].0 == r[j].0
    ensures Keys(r) == Keys(d)
    ensures DistinctKeys(d) ==> DistinctKeys(r)
  {
  }

  /** Such dictionaries find every key at the same position. */
  lemma {:induction false} SameIndex<V>(d: Dict<V>, r: Dict<V>, k: string)
    requires |d| == |r| && forall j :: 0 <= j < |d| ==> d[j].0 == r[j].0
    ensures IndexOf(r, k) == IndexOf(d, k)
    decreases |d|
  {
    if d != [] && d[0].0 != k {
      SameIndex(d[1..], r[1..], k);
    }
  }

  /** Assigning a key twice leaves only the second value, in the same place. */
  lemma PutPut<V>(d: Dict<V>, k: string, v1: V, v2: V)
    ensures Put(Put(d, k, v1), k, v2) == Put(d, k, v2)
  {
    var d1 := Put(d, k, v1);
    match IndexOf(d, k)
    case None =>
      IndexOfAppended(d, k, v1);
      assert d1[|d| := (k, v2)] == d + [(k, v2)];
    case Some(i) =>
      SameIndex(d, d1, k);
      assert d1[i := (k, v2)] == d[i := (k, v2)];
  }

  /** Assigning a key the value it already has changes nothing. */
  lemma PutSame<V>(d: Dict<V>, k: string, v: V)
    requires Get(d, k) == Some(v)
    ensures Put(d, k, v) == d
  {
    var i := IndexOf(d, k).value;
    assert d[i := (k, v)] == d;
  }

  /** A key new to `d` is found at the end once appended. */
  lemma {:induction false} IndexOfAppended<V>(d: Dict<V>, k: string, v: V)
    requires !HasKey(d, k)
    ensures IndexOf(d + [(k, v)], k) == Some(|d|)
    decreases |d|
  {
    if d != [] {
      assert (d + [(k, v)])[1..] == d[1..] + [(k, v)];
      assert !HasKey(d[1..], k) by {
        forall m | 0 <= m < |d[1..]| ensures d[1..][m].0 != k { assert d[1..][m] == d[m + 1]; }
      }
      IndexOfAppended(d[1..], k, v);
    }
  }

  /** `del d[k]` when `k` is present; unchanged otherwise. */
  function Remove<V>(d: Dict<V>, k: string): (r: Dict<V>)
    requires DistinctKeys(d)
    ensures !HasKey(r, k)
    ensures DistinctKeys(r)
    ensures forall k' :: k' != k ==> Get(r, k') == Get(d, k')
    ensures |r| == if HasKey(d, k) then |d| - 1 else |d|
  {
    match IndexOf(d, k)
    case None => d
    case Some(i) => RemoveAt(d, i, k); d[..i] + d[i + 1..]
  }

  lemma RemoveAt<V>(d: Dict<V>, i: nat, k: string)
    requires DistinctKeys(d) && i < |d| && d[i].0 == k
    ensures !HasKey(d[..i] + d[i + 1..], k)
    ensures DistinctKeys(d[..i] + d[i + 1..])
    ensures forall k' :: k' != k ==> Get(d[..i] + d[i + 1..], k') == Get(d, k')
  {
    var r := d[..i] + d[i + 1..];
    assert forall j :: 0 <= j < |r| ==> r[j] == (if j < i then d[j] else d[j + 1]);
    assert !HasKey(r, k);
    forall k' | k' != k ensures Get(r, k') == Get(d, k') {
      RemoveAtOther(d, i, k, k');
    }
  }

  lemma RemoveAtOther<V>(d: Dict<V>, i: nat, k: string, k': string)
    requires DistinctKeys(d) && i < |d| && d[i].0 == k && k' != k
    ensures Get(d[..i] + d[i + 1..], k') == Get(d, k')
  {
    var r := d[..i] + d[i + 1..];
    assert forall j :: 0 <= j < |r| ==> r[j] == (if j < i then d[j] else d[j + 1]);
    var a, b := IndexOf(r, k'), IndexOf(d, k');
    if b.Some? {
      assert b.value != i;
      assert r[if b.value < i then b.value else b.value - 1] == d[b.value];
    }
    if a.Some? { assert r[a.value] == d[if a.value < i then a.value else a.value + 1]; }
  }

  /** Every entry after `d[k] = v` is the new one or an entry of `d`. */
  lemma PutEntries<V>(d: Dict<V>, k: string, v: V)
    ensures forall e :: e in Put(d, k, v) ==> e == (k, v) || e in d
  {
    var r := Put(d, k, v);
    forall e | e in r ensures e == (k, v) || e in d {
      var j :| 0 <= j < |r| && r[j] == e;
      if !HasKey(d, k) {
        if j < |d| { assert r[j] == d[j]; }
      } else {
        var i := IndexOf(d, k).value;
        assert r == d[i := (k, v)];
        if j != i { assert r[j] == d[j]; }
      }
    }
  }

  /** Removing a key keeps only entries of the original. */
  lemma RemoveEntries<V>(d: Dict<V>, k: string)
    requires DistinctKeys(d)
    ensures forall e :: e in Remove(d, k) ==> e in d
  {
    var r := Remove(d, k);
    if HasKey(d, k) {
      var i := IndexOf(d, k).value;
      assert r == d[..i] + d[i + 1..];
      forall e | e in r ensures e in d {
        var j :| 0 <= j < |r| && r[j] == e;
        if j < i { assert r[j] == d[j]; } else { assert r[j] == d[j + 1]; }
      }
    }
  }

  /** Sum of the counters of a tally. */
  function Sum(d: Dict<nat>): nat
  {
    if d == [] then 0 else d[0].1 + Sum(d[1..])
  }

  /** Add one to the counter of `k`: `d[k] = d.get(k, 0) + 1`. */
  function Bump(d: Dict<nat>, k: string): (r: Dict<nat>)
    ensures Get(r, k) == Some(Get(d, k).GetOr(0) + 1)
    ensures forall k' :: k' != k ==> Get(r, k') == Get(d, k')
    ensures HasKey(d, k) ==> Keys(r) == Keys(d)
    ensures !HasKey(d, k) ==> Keys(r) == Keys(d) + [k]
    ensures Sum(r) == Sum(d) + 1
  {
    var n := Get(d, k).GetOr(0) + 1;
    SumPut(d, k, n);
    KeysAppend(d, [(k, n)]);
    Put(d, k, n)
  }

  /** Setting a counter changes the sum by the difference. */
  lemma SumPut(d: Dict<nat>, k: string, v: nat)
    ensures Sum(Put(d, k, v)) == Sum(d) - Get(d, k).GetOr(0) + v
  {
    match IndexOf(d, k)
    case None =>
      SumSnoc(d, (k, v));
    case Some(i) =>
      assert Put(d, k, v) == d[i := (k, v)];
      SumUpdate(d, i, (k, v));
  }

  lemma {:induction false} SumSnoc(d: Dict<nat>, e: (string, nat))
    ensures Sum(d + [e]) == Sum(d) + e.1
    decreases |d|
  {
    if d != [] {
      assert (d + [e])[1..] == d[1..] + [e];
      SumSnoc(d[1..], e);
    }
  }

  lemma {:induction false} SumUpdate(d: Dict<nat>, i: nat, e: (string, nat))
    requires i < |d|
    ensures Sum(d[i := e]) == Sum(d) - d[i].1 + e.1
    decreases |d|
  {
    if i > 0 {
      assert d[i := e][1..] == d[1..][i - 1 := e];
      SumUpdate(d[1..], i - 1, e);
    } else {
      assert d[i := e][1..] == d[1..];
    }
  }
}
