/** A batch of writes that pairs references with values, as every backend's
    setters do: `references.Zip(values)` in C#, two iterators advanced
    together in Java, `zip` in Python. The pairing stops at the end of the
    shorter sequence, and a later pair overwrites an earlier one with the
    same reference. */
module Batches {
  function Min(a: nat, b: nat): nat
  {
    if a < b then a else b
  }

  /** The map after the zipped writes, in order. */
  function Store<K(==), V>(m: map<K, V>, ks: seq<K>, vs: seq<V>): map<K, V>
    decreases |ks|
  {
    if |ks| == 0 || |vs| == 0 then m else Store(m[ks[0] := vs[0]], ks[1..], vs[1..])
  }

  /** The keys afterwards are the old keys and the paired references. */
  lemma {:induction false} StoreKeys<K, V>(m: map<K, V>, ks: seq<K>, vs: seq<V>)
    ensures Store(m, ks, vs).Keys == m.Keys + set i | 0 <= i < Min(|ks|, |vs|) :: ks[i]
    decreases |ks|
  {
    if |ks| > 0 && |vs| > 0 {
      StoreKeys(m[ks[0] := vs[0]], ks[1..], vs[1..]);
      var n := Min(|ks|, |vs|);
      var tail := set i | 0 <= i < n - 1 :: ks[1..][i];
      var all := set i | 0 <= i < n :: ks[i];
      assert all == {ks[0]} + tail by {
        forall k | k in all ensures k in {ks[0]} + tail {
          var i :| 0 <= i < n && ks[i] == k;
          if i > 0 { assert ks[1..][i - 1] == k; }
        }
        forall k | k in tail ensures k in all {
          var i :| 0 <= i < n - 1 && ks[1..][i] == k;
          assert ks[i + 1] == k;
        }
      }
    }
  }

  /** A reference outside the batch keeps its old entry, or its absence. */
  lemma {:induction false} StoreUntouched<K, V>(m: map<K, V>, ks: seq<K>, vs: seq<V>, k: K)
    requires forall i | 0 <= i < Min(|ks|, |vs|) :: ks[i] != k
    ensures k in Store(m, ks, vs) <==> k in m
    ensures k in m ==> Store(m, ks, vs)[k] == m[k]
    decreases |ks|
  {
    if |ks| > 0 && |vs| > 0 {
      assert forall i | 0 <= i < Min(|ks| - 1, |vs| - 1) :: ks[1..][i] == ks[i + 1];
      StoreUntouched(m[ks[0] := vs[0]], ks[1..], vs[1..], k);
    }
  }

  /** The last pair for a reference decides its value. */
  lemma {:induction false} StoreLast<K, V>(m: map<K, V>, ks: seq<K>, vs: seq<V>, i: nat)
    requires i < Min(|ks|, |vs|)
    requires forall j | i < j < Min(|ks|, |vs|) :: ks[j] != ks[i]
    ensures ks[i] in Store(m, ks, vs) && Store(m, ks, vs)[ks[i]] == vs[i]
    decreases |ks|
  {
    if i == 0 {
      assert forall j | 0 <= j < Min(|ks| - 1, |vs| - 1) :: ks[1..][j] == ks[j + 1];
      StoreUntouched(m[ks[0] := vs[0]], ks[1..], vs[1..], ks[0]);
    } else {
      assert forall j | i - 1 < j < Min(|ks| - 1, |vs| - 1) :: ks[1..][j] == ks[j + 1];
      StoreLast(m[ks[0] := vs[0]], ks[1..], vs[1..], i - 1);
    }
  }

  /** Writing one more pair after a batch is the batch followed by that
      write. */
  lemma {:induction false} StoreSnoc<K, V>(m: map<K, V>, ks: seq<K>, vs: seq<V>, k: K, v: V)
    requires |ks| == |vs|
    ensures Store(m, ks + [k], vs + [v]) == Store(m, ks, vs)[k := v]
    decreases |ks|
  {
    if |ks| > 0 {
      assert (ks + [k])[1..] == ks[1..] + [k] && (vs + [v])[1..] == vs[1..] + [v];
      StoreSnoc(m[ks[0] := vs[0]], ks[1..], vs[1..], k, v);
    } else {
      assert ks + [k] == [k] && vs + [v] == [v];
    }
  }

  /** The zipped write loop of the setters. */
  method StoreAll<K(==), V>(m: map<K, V>, ks: seq<K>, vs: seq<V>) returns (r: map<K, V>)
    ensures r == Store(m, ks, vs)
  {
    r := m;
    var i := 0;
    while i < |ks| && i < |vs|
      invariant i <= |ks| && i <= |vs|
      invariant Store(r, ks[i..], vs[i..]) == Store(m, ks, vs)
    {
      assert ks[i..][1..] == ks[i + 1..] && vs[i..][1..] == vs[i + 1..];
      r := r[ks[i] := vs[i]];
      i := i + 1;
    }
  }
}
