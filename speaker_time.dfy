/**
 * Speaker-time maps: the Python dicts `{speaker: seconds}` that sentences
 * and windows carry. A dict is modelled as its list of (key, value) pairs
 * in insertion order, which is the order `items()` and `max` see. Lookup
 * and update act on the first pair with the key; a Python dict never
 * holds a key twice, which `DistinctKeys` states and `Add` preserves.
 */
module SpeakerTime {

  type Entry = (string, real)
  type SpeakerMap = seq<Entry>

  /** A dict never holds a key twice. */
  predicate DistinctKeys(m: SpeakerMap)
  {
    forall i, j :: 0 <= i < j < |m| ==> m[i].0 != m[j].0
  }

  predicate HasKey(m: SpeakerMap, k: string)
  {
    exists i :: 0 <= i < |m| && m[i].0 == k
  }

  /** Position of the first pair with key `k`, or -1 when there is none. */
  function Find(m: SpeakerMap, k: string): (r: int)
    ensures -1 <= r < |m|
    ensures r >= 0 ==> m[r].0 == k && forall i :: 0 <= i < r ==> m[i].0 != k
    ensures r < 0 ==> forall i :: 0 <= i < |m| ==> m[i].0 != k
  {
    if |m| == 0 then -1
    else if m[0].0 == k then 0
    else var r := Find(m[1..], k); if r < 0 then -1 else r + 1
  }

  /** Maps with the same keys in the same places find every key at the same place. */
  lemma FindSameKeys(m: SpeakerMap, m': SpeakerMap, x: string)
    requires |m| == |m'| && forall i :: 0 <= i < |m| ==> m[i].0 == m'[i].0
    ensures Find(m, x) == Find(m', x)
  {
    var a, b := Find(m, x), Find(m', x);
    if a >= 0 { assert m'[a].0 == x; }
    if b >= 0 { assert m[b].0 == x; }
  }

  /** `m.get(k, 0)` */
  function Get(m: SpeakerMap, k: string): real
  {
    var i := Find(m, k);
    if i >= 0 then m[i].1 else 0.0
  }

  /** In a dict, the value stored at a key is what `get` returns for it; an absent key reads 0. */
  lemma GetAt(m: SpeakerMap, k: string)
    requires DistinctKeys(m)
    ensures forall i :: 0 <= i < |m| && m[i].0 == k ==> Get(m, k) == m[i].1
    ensures !HasKey(m, k) ==> Get(m, k) == 0.0
  {
  }

  /**
   * `m[k] = m.get(k, 0) + v`: an existing key keeps its place, a new key
   * goes last.
   */
  function Add(m: SpeakerMap, k: string, v: real): SpeakerMap
  {
    var i := Find(m, k);
    if i >= 0 then m[i := (k, m[i].1 + v)] else m + [(k, v)]
  }

  /** After `Add`, the key `k` holds `v` more and every other key reads as before. */
  lemma AddGet(m: SpeakerMap, k: string, v: real, x: string)
    ensures Get(Add(m, k, v), x) == Get(m, x) + (if x == k then v else 0.0)
  {
    var i := Find(m, k);
    var r := Add(m, k, v);
    if i >= 0 {
      FindSameKeys(m, r, x);
    } else {
      var f := Find(m, x);
      if f >= 0 {
        assert r[f] == m[f];
        assert Find(r, x) == f by { assert r[f].0 == x; }
      } else if x == k {
        assert r[|m|].0 == k;
      } else {
        assert forall q :: 0 <= q < |r| ==> r[q].0 != x;
      }
    }
  }

  /** `Add` keeps the existing keys in place, puts a new key last, and keeps a dict a dict. */
  lemma AddKeys(m: SpeakerMap, k: string, v: real)
    ensures var r := Add(m, k, v);
      && |r| == (if HasKey(m, k) then |m| else |m| + 1)
      && (forall i :: 0 <= i < |m| ==> r[i].0 == m[i].0)
      && (!HasKey(m, k) ==> r[|m|] == (k, v))
      && (forall x :: HasKey(r, x) <==> HasKey(m, x) || x == k)
      && (DistinctKeys(m) ==> DistinctKeys(r))
  {
    var r := Add(m, k, v);
    var i := Find(m, k);
    forall x ensures HasKey(r, x) <==> HasKey(m, x) || x == k {
      if HasKey(m, x) {
        var q :| 0 <= q < |m| && m[q].0 == x;
        assert r[q].0 == x;
      }
      if HasKey(r, x) && x != k {
        var q :| 0 <= q < |r| && r[q].0 == x;
        assert q < |m| && m[q].0 == x;
      }
      if x == k && i < 0 { assert r[|m|].0 == k; }
    }
  }

  /** Sum of the values of a map. */
  function Total(m: SpeakerMap): real
  {
    if |m| == 0 then 0.0 else Total(m[..|m| - 1]) + m[|m| - 1].1
  }

  lemma {:induction false} TotalUpdate(m: SpeakerMap, i: nat, e: Entry)
    requires i < |m|
    ensures Total(m[i := e]) == Total(m) - m[i].1 + e.1
  {
    var n := |m| - 1;
    if i < n {
      assert m[i := e][..n] == m[..n][i := e];
      TotalUpdate(m[..n], i, e);
    } else {
      assert m[i := e][..n] == m[..n];
    }
  }

  /** Adding `v` to one speaker adds `v` to the total. */
  lemma AddTotal(m: SpeakerMap, k: string, v: real)
    ensures Total(Add(m, k, v)) == Total(m) + v
  {
    var i := Find(m, k);
    if i >= 0 {
      TotalUpdate(m, i, (k, m[i].1 + v));
    } else {
      assert (m + [(k, v)])[..|m|] == m;
    }
  }

  /** `for k, v in m.items(): acc[k] = acc.get(k, 0) + v` */
  function Merge(acc: SpeakerMap, m: SpeakerMap): SpeakerMap
  {
    if |m| == 0 then acc else Add(Merge(acc, m[..|m| - 1]), m[|m| - 1].0, m[|m| - 1].1)
  }

  /** Dropping the last pair of a dict removes exactly that pair's contribution. */
  lemma GetInit(m: SpeakerMap, x: string)
    requires |m| > 0 && DistinctKeys(m)
    ensures Get(m, x) == Get(m[..|m| - 1], x) + (if x == m[|m| - 1].0 then m[|m| - 1].1 else 0.0)
  {
    var init := m[..|m| - 1];
    var f := Find(m, x);
    if f >= 0 && f < |init| {
      assert init[f].0 == x;
      FindSameKeys(init, m[..|init|], x);
    } else if f < 0 {
      assert forall q :: 0 <= q < |init| ==> init[q].0 != x;
    } else {
      assert forall q :: 0 <= q < |init| ==> init[q].0 != x;
    }
  }

  /** Merging a dict into an accumulator adds the two pointwise, and keeps a dict a dict. */
  lemma {:induction false} MergeGet(acc: SpeakerMap, m: SpeakerMap, x: string)
    requires DistinctKeys(m)
    ensures Get(Merge(acc, m), x) == Get(acc, x) + Get(m, x)
    ensures DistinctKeys(acc) ==> DistinctKeys(Merge(acc, m))
  {
    if |m| > 0 {
      var init := m[..|m| - 1];
      MergeGet(acc, init, x);
      GetInit(m, x);
      AddGet(Merge(acc, init), m[|m| - 1].0, m[|m| - 1].1, x);
      AddKeys(Merge(acc, init), m[|m| - 1].0, m[|m| - 1].1);
    }
  }

  /** All of a run's maps summed into one, starting from `{}`. */
  function SumMaps(ms: seq<SpeakerMap>): SpeakerMap
  {
    if |ms| == 0 then [] else Merge(SumMaps(ms[..|ms| - 1]), ms[|ms| - 1])
  }

  /** Reference definition: `sum(m.get(x, 0) for m in ms)`. */
  function SumOfGets(ms: seq<SpeakerMap>, x: string): real
  {
    if |ms| == 0 then 0.0 else SumOfGets(ms[..|ms| - 1], x) + Get(ms[|ms| - 1], x)
  }

  /** The summed map gives each speaker the sum of that speaker's seconds over the run, and is a dict. */
  lemma {:induction false} SumMapsGet(ms: seq<SpeakerMap>, x: string)
    requires forall i :: 0 <= i < |ms| ==> DistinctKeys(ms[i])
    ensures Get(SumMaps(ms), x) == SumOfGets(ms, x)
    ensures DistinctKeys(SumMaps(ms))
  {
    if |ms| > 0 {
      SumMapsGet(ms[..|ms| - 1], x);
      MergeGet(SumMaps(ms[..|ms| - 1]), ms[|ms| - 1], x);
    }
  }

  /** `d[k] = v`: an existing key keeps its place and takes the new value, a new key goes last. */
  function Put(m: SpeakerMap, k: string, v: real): SpeakerMap
  {
    var i := Find(m, k);
    if i >= 0 then m[i := (k, v)] else m + [(k, v)]
  }

  /** `{k: v for k, v in m.items()}`: the pairs stored one by one into `{}`. */
  function Rebuild(m: SpeakerMap): SpeakerMap
  {
    if |m| == 0 then [] else Put(Rebuild(m[..|m| - 1]), m[|m| - 1].0, m[|m| - 1].1)
  }

  /** Storing into a dict keeps it a dict. */
  lemma PutDistinct(m: SpeakerMap, k: string, v: real)
    requires DistinctKeys(m)
    ensures DistinctKeys(Put(m, k, v))
  {
    var r := Put(m, k, v);
    var i := Find(m, k);
    if i < 0 {
      assert forall q :: 0 <= q < |m| ==> r[q] == m[q];
    }
  }

  /** Rebuilding always yields a dict, and leaves a dict exactly as it was. */
  lemma {:induction false} RebuildDict(m: SpeakerMap)
    ensures DistinctKeys(Rebuild(m))
    ensures DistinctKeys(m) ==> Rebuild(m) == m
  {
    if |m| > 0 {
      var init := m[..|m| - 1];
      var last := m[|m| - 1];
      RebuildDict(init);
      PutDistinct(Rebuild(init), last.0, last.1);
      if DistinctKeys(m) {
        assert DistinctKeys(init);
        assert Find(init, last.0) < 0 by {
          forall q | 0 <= q < |init| ensures init[q].0 != last.0 {
            assert m[q].0 != m[|m| - 1].0;
          }
        }
        assert init + [last] == m;
      }
    }
  }
}
