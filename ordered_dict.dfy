/** Python dictionaries as the connector uses them: insertion-ordered key/value
    pairs, `d[k] = v`, `d.get(k)`, the `defaultdict(int)` counter idiom
    `d[k] += 1`, and `dict(zip(keys, values))`. */
module OrderedDict {
  import opened Wrappers

  /** A dict, as its pairs in insertion order. */
  type Dict<K, V> = seq<(K, V)>

  function Keys<K, V>(d: Dict<K, V>): seq<K> {
    seq(|d|, i requires 0 <= i < |d| => d[i].0)
  }

  ghost predicate DistinctKeys<K, V>(d: Dict<K, V>) {
    forall i, j :: 0 <= i < j < |d| ==> d[i].0 != d[j].0
  }

  /** The position of key `k`, or -1. */
  function IndexOf<K(==), V>(d: Dict<K, V>, k: K): (r: int)
    ensures -1 <= r < |d|
    ensures r < 0 <==> forall i :: 0 <= i < |d| ==> d[i].0 != k
    ensures 0 <= r ==> d[r].0 == k && forall i :: 0 <= i < r ==> d[i].0 != k
  {
    if d == [] then -1
    else if d[0].0 == k then 0
    else
      var r := IndexOf(d[1..], k);
      if r < 0 then -1 else r + 1
  }

  /** `d.get(k)`. */
  function Lookup<K(==), V>(d: Dict<K, V>, k: K): Option<V> {
    var i := IndexOf(d, k);
    if i < 0 then None else Some(d[i].1)
  }

  /** `d[k] = v`: an existing key keeps its position, a new key goes last. */
  function Assign<K(==), V>(d: Dict<K, V>, k: K, v: V): Dict<K, V> {
    var i := IndexOf(d, k);
    if i < 0 then d + [(k, v)] else d[i := (k, v)]
  }

  lemma LookupInKeys<K, V>(d: Dict<K, V>, k: K)
    ensures Lookup(d, k).Some? <==> k in Keys(d)
  {
    var i := IndexOf(d, k);
    if i >= 0 {
      assert Keys(d)[i] == k;
    }
    if k in Keys(d) {
      var j :| 0 <= j < |d| && Keys(d)[j] == k;
      assert d[j].0 == k;
    }
  }

  lemma AssignProperties<K, V>(d: Dict<K, V>, k: K, v: V)
    requires DistinctKeys(d)
    ensures DistinctKeys(Assign(d, k, v))
    ensures Lookup(Assign(d, k, v), k) == Some(v)
    ensures forall k' :: k' != k ==> Lookup(Assign(d, k, v), k') == Lookup(d, k')
    ensures Lookup(d, k).None? ==> Keys(Assign(d, k, v)) == Keys(d) + [k]
    ensures Lookup(d, k).Some? ==> Keys(Assign(d, k, v)) == Keys(d)
  {
    var d' := Assign(d, k, v);
    var i := IndexOf(d, k);
    forall k' | k' != k ensures Lookup(d', k') == Lookup(d, k') {
      var j := IndexOf(d, k');
      var j' := IndexOf(d', k');
      if j >= 0 {
        assert d'[j].0 == k';
        assert j' == j;
      } else {
        assert j' < 0;
      }
    }
    if i < 0 {
      assert d'[|d|].0 == k;
      assert Keys(d') == Keys(d) + [k];
    } else {
      assert d'[i].0 == k;
      assert IndexOf(d', k) == i;
      assert Keys(d') == Keys(d);
    }
  }

  /** `d[k] += 1` on a `defaultdict(int)`. */
  function Increment<K(==)>(d: Dict<K, nat>, k: K): Dict<K, nat> {
    Assign(d, k, Lookup(d, k).GetOr(0) + 1)
  }

  lemma IncrementLookup<K>(d: Dict<K, nat>, k: K, k': K)
    requires DistinctKeys(d)
    ensures Lookup(Increment(d, k), k') == if k' == k then Some(Lookup(d, k).GetOr(0) + 1) else Lookup(d, k')
  {
    AssignProperties(d, k, Lookup(d, k).GetOr(0) + 1);
  }

  /** The counter left by running `d[k] += 1` for every `k` of `ks` in turn. */
  function Tally<K(==)>(ks: seq<K>): Dict<K, nat> {
    if ks == [] then [] else Increment(Tally(ks[..|ks| - 1]), ks[|ks| - 1])
  }

  lemma TallySnoc<K>(ks: seq<K>, k: K)
    ensures Tally(ks + [k]) == Increment(Tally(ks), k)
  {
    assert (ks + [k])[..|ks|] == ks;
  }

  /** How often `k` occurs in `ks`. */
  function Count<K(==)>(ks: seq<K>, k: K): nat {
    if ks == [] then 0 else Count(ks[..|ks| - 1], k) + (if ks[|ks| - 1] == k then 1 else 0)
  }

  function SumValues<K>(d: Dict<K, nat>): nat {
    if d == [] then 0 else d[0].1 + SumValues(d[1..])
  }

  lemma {:induction false} CountPositive<K>(ks: seq<K>, k: K)
    ensures Count(ks, k) > 0 <==> k in ks
  {
    if ks != [] {
      var front := ks[..|ks| - 1];
      CountPositive(front, k);
      assert ks == front + [ks[|ks| - 1]];
    }
  }

  lemma {:induction false} SumValuesAppend<K>(d: Dict<K, nat>, p: (K, nat))
    ensures SumValues(d + [p]) == SumValues(d) + p.1
  {
    if d != [] {
      assert (d + [p])[1..] == d[1..] + [p];
      SumValuesAppend(d[1..], p);
    }
  }

  lemma {:induction false} SumValuesUpdate<K>(d: Dict<K, nat>, i: nat, p: (K, nat))
    requires i < |d|
    ensures SumValues(d[i := p]) == SumValues(d) - d[i].1 + p.1
  {
    if i > 0 {
      assert d[i := p][1..] == d[1..][i - 1 := p];
      SumValuesUpdate(d[1..], i - 1, p);
    }
  }

  lemma {:induction false} TallyDistinct<K>(ks: seq<K>)
    ensures DistinctKeys(Tally(ks))
  {
    if ks != [] {
      var front, last := ks[..|ks| - 1], ks[|ks| - 1];
      var t := Tally(front);
      TallyDistinct(front);
      AssignProperties(t, last, Lookup(t, last).GetOr(0) + 1);
    }
  }

  lemma {:induction false} TallyCount<K>(ks: seq<K>, k: K)
    ensures Lookup(Tally(ks), k) == if Count(ks, k) == 0 then None else Some(Count(ks, k))
  {
    if ks != [] {
      var front, last := ks[..|ks| - 1], ks[|ks| - 1];
      var t := Tally(front);
      TallyDistinct(front);
      TallyCount(front, k);
      IncrementLookup(t, last, k);
      assert Tally(ks) == Increment(t, last);
      assert Count(ks, k) == Count(front, k) + (if last == k then 1 else 0);
    }
  }

  /** Every counter entry is the number of occurrences of its key, and only keys
      that occur have an entry. */
  lemma TallyCounts<K>(ks: seq<K>)
    ensures DistinctKeys(Tally(ks))
    ensures forall k :: Lookup(Tally(ks), k) == if Count(ks, k) == 0 then None else Some(Count(ks, k))
  {
    TallyDistinct(ks);
    forall k ensures Lookup(Tally(ks), k) == if Count(ks, k) == 0 then None else Some(Count(ks, k)) {
      TallyCount(ks, k);
    }
  }

  /** The keys of the counter are exactly the distinct elements of `ks`. */
  lemma TallyKeys<K>(ks: seq<K>)
    ensures forall k :: k in Keys(Tally(ks)) <==> k in ks
  {
    TallyCounts(ks);
    forall k ensures k in Keys(Tally(ks)) <==> k in ks {
      LookupInKeys(Tally(ks), k);
      CountPositive(ks, k);
    }
  }

  /** The counts add up to the number of increments. */
  lemma {:induction false} TallySum<K>(ks: seq<K>)
    ensures SumValues(Tally(ks)) == |ks|
  {
    if ks != [] {
      var front, last := ks[..|ks| - 1], ks[|ks| - 1];
      var t := Tally(front);
      TallySum(front);
      var i := IndexOf(t, last);
      if i < 0 {
        SumValuesAppend(t, (last, 1));
      } else {
        SumValuesUpdate(t, i, (last, t[i].1 + 1));
      }
    }
  }

  /** `dict(pairs)`: each pair is assigned in turn. */
  function FromPairs<K(==), V>(ps: seq<(K, V)>): Dict<K, V> {
    if ps == [] then [] else Assign(FromPairs(ps[..|ps| - 1]), ps[|ps| - 1].0, ps[|ps| - 1].1)
  }

  /** The value carried by the last pair whose key is `k`. */
  function LastValue<K(==), V>(ps: seq<(K, V)>, k: K): Option<V> {
    if ps == [] then None
    else if ps[|ps| - 1].0 == k then Some(ps[|ps| - 1].1)
    else LastValue(ps[..|ps| - 1], k)
  }

  /** In `dict(pairs)` the last pair for a key wins. */
  lemma {:induction false} FromPairsLookup<K, V>(ps: seq<(K, V)>)
    ensures DistinctKeys(FromPairs(ps))
    ensures forall k :: Lookup(FromPairs(ps), k) == LastValue(ps, k)
  {
    if ps != [] {
      var front, last := ps[..|ps| - 1], ps[|ps| - 1];
      FromPairsLookup(front);
      AssignProperties(FromPairs(front), last.0, last.1);
    }
  }

  /** With no repeated key, `dict(pairs)` keeps every pair, in order. */
  lemma {:induction false} FromPairsDistinct<K, V>(ps: seq<(K, V)>)
    requires forall i, j :: 0 <= i < j < |ps| ==> ps[i].0 != ps[j].0
    ensures FromPairs(ps) == ps
  {
    if ps != [] {
      var front := ps[..|ps| - 1];
      FromPairsDistinct(front);
      assert IndexOf(front, ps[|ps| - 1].0) < 0;
    }
  }

  /** `zip(keys, values)`, which stops at the shorter sequence. */
  function Zip<K, V>(ks: seq<K>, vs: seq<V>): (r: seq<(K, V)>)
    ensures |r| == if |ks| < |vs| then |ks| else |vs|
    ensures forall i :: 0 <= i < |r| ==> r[i] == (ks[i], vs[i])
  {
    var n := if |ks| < |vs| then |ks| else |vs|;
    seq(n, i requires 0 <= i < n => (ks[i], vs[i]))
  }

  /** `dict(zip(keys, values))` of distinct keys and enough values has exactly the keys,
      in order, and the i-th key holds the i-th value; surplus values are dropped. */
  lemma ZipDict<K, V>(ks: seq<K>, vs: seq<V>)
    requires forall i, j :: 0 <= i < j < |ks| ==> ks[i] != ks[j]
    requires |ks| <= |vs|
    ensures Keys(FromPairs(Zip(ks, vs))) == ks
    ensures forall i :: 0 <= i < |ks| ==> FromPairs(Zip(ks, vs))[i].1 == vs[i]
  {
    FromPairsDistinct(Zip(ks, vs));
  }
}
