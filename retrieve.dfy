/**
 * Result shaping of `Retriever.search` (pipeline/retrieve.py): the count
 * guard, the clamping of `k` and `out_k`, the zip of the query's parallel
 * lists, the optional stable rerank by descending cross-encoder score, and
 * the final cut to `out_k` hits. The collection, the query embedder and
 * the cross-encoder are abstract values handed to the retriever.
 */
module Retrieve {
  import opened Wrappers
  import opened EmbedIndex

  /** One search hit: `(id, document, metadata)`. */
  type Hit = (string, string, Meta)

  /** A `where` filter for the collection's query. */
  type Where = map<string, string>

  /**
   * What `coll.query` answers for a single query embedding: nothing (a
   * falsy answer), or the first lists under `ids`, `documents` and
   * `metadatas`, each `None` when its key is missing.
   */
  datatype QueryResult =
    | NoAnswer
    | Lists(ids: Option<seq<string>>, docs: Option<seq<string>>, metas: Option<seq<Meta>>)

  /**
   * The collection as the retriever sees it: `count()` (`None` when it
   * raises) and the nearest-neighbour query from query embeddings,
   * `n_results` and the filter.
   */
  datatype Index = Index(count: Option<int>, query: (seq<Embedding>, int, Where) -> QueryResult)

  /** `max(lo, min(x, hi))` */
  function Clamp(x: int, lo: int, hi: int): (r: int)
    requires lo <= hi
    ensures lo <= r <= hi
    ensures lo <= x <= hi ==> r == x
    ensures x > hi ==> r == hi
    ensures x < lo ==> r == lo
  {
    if x < hi then (if x > lo then x else lo) else hi
  }

  /** `list(zip(a, b, c))`: as long as the shortest, position by position. */
  function Zip3(a: seq<string>, b: seq<string>, c: seq<Meta>): (r: seq<Hit>)
    ensures |r| == if |a| <= |b| && |a| <= |c| then |a| else if |b| <= |c| then |b| else |c|
    ensures forall i :: 0 <= i < |r| ==> r[i] == (a[i], b[i], c[i])
  {
    if |a| == 0 || |b| == 0 || |c| == 0 then []
    else [(a[0], b[0], c[0])] + Zip3(a[1..], b[1..], c[1..])
  }

  /** The hits of a query answer; a falsy answer or a missing key gives no hits. */
  function HitsOf(res: QueryResult): seq<Hit>
  {
    match res
    case NoAnswer => []
    case Lists(ids, docs, metas) => Zip3(ids.GetOr([]), docs.GetOr([]), metas.GetOr([]))
  }

  /** `s[:n]` for `n >= 1`. */
  function Take<T>(s: seq<T>, n: int): (r: seq<T>)
    requires n >= 1
    ensures |r| == if n <= |s| then n else |s|
    ensures r == s[..|r|]
  {
    if n <= |s| then s[..n] else s
  }

  // ---------------------------------------------------------------------
  // Stable sort by descending score
  // ---------------------------------------------------------------------

  /** Scores never increase along the list. */
  predicate SortedDesc(score: Hit -> real, s: seq<Hit>)
  {
    forall i, j :: 0 <= i < j < |s| ==> score(s[i]) >= score(s[j])
  }

  /** The hits scoring exactly `v`, in order. */
  function WithScore(score: Hit -> real, s: seq<Hit>, v: real): seq<Hit>
  {
    if |s| == 0 then [] else (if score(s[0]) == v then [s[0]] else []) + WithScore(score, s[1..], v)
  }

  /**
   * Puts `x` in front of the first hit scoring no more than it; `x` comes
   * from before every hit of `t`, so it goes ahead of its ties.
   */
  function Insert(score: Hit -> real, x: Hit, t: seq<Hit>): seq<Hit>
  {
    if |t| == 0 || score(x) >= score(t[0]) then [x] + t else [t[0]] + Insert(score, x, t[1..])
  }

  /**
   * `sorted(zip(scores, hits), key=lambda x: -x[0])` read back as hits: a
   * stable sort by descending score.
   */
  function SortDesc(score: Hit -> real, s: seq<Hit>): seq<Hit>
  {
    if |s| == 0 then [] else Insert(score, s[0], SortDesc(score, s[1..]))
  }

  /** In a list sorted downward whose head scores below `v`, nothing scores `v`. */
  lemma {:induction false} NoneAbove(score: Hit -> real, t: seq<Hit>, v: real)
    requires SortedDesc(score, t) && |t| > 0 && score(t[0]) < v
    ensures WithScore(score, t, v) == []
  {
    if |t| > 1 {
      assert score(t[1]) <= score(t[0]);
      assert SortedDesc(score, t[1..]);
      NoneAbove(score, t[1..], v);
    }
  }

  /** Inserting adds exactly `x`. */
  lemma {:induction false} InsertMultiset(score: Hit -> real, x: Hit, t: seq<Hit>)
    ensures multiset(Insert(score, x, t)) == multiset(t) + multiset{x}
    ensures |Insert(score, x, t)| == |t| + 1
  {
    if |t| > 0 && score(x) < score(t[0]) {
      InsertMultiset(score, x, t[1..]);
      assert t == [t[0]] + t[1..];
    }
  }

  /** Inserting into a list sorted downward keeps it sorted downward. */
  lemma {:induction false} InsertSorted(score: Hit -> real, x: Hit, t: seq<Hit>)
    requires SortedDesc(score, t)
    ensures SortedDesc(score, Insert(score, x, t))
  {
    if |t| > 0 && score(x) < score(t[0]) {
      var rest := t[1..];
      assert SortedDesc(score, rest);
      InsertSorted(score, x, rest);
      InsertMultiset(score, x, rest);
      var r := Insert(score, x, rest);
      forall j | 0 <= j < |r| ensures score(t[0]) >= score(r[j]) {
        assert r[j] in multiset(rest) + multiset{x};
        if r[j] != x {
          var q :| 0 <= q < |rest| && rest[q] == r[j];
          assert t[q + 1] == rest[q];
        }
      }
      assert Insert(score, x, t) == [t[0]] + r;
    }
  }

  /** Among the hits of any one score, `x` comes first, ahead of those of `t`. */
  lemma {:induction false} InsertWithScore(score: Hit -> real, x: Hit, t: seq<Hit>, v: real)
    requires SortedDesc(score, t)
    ensures WithScore(score, Insert(score, x, t), v) == (if score(x) == v then [x] else []) + WithScore(score, t, v)
  {
    if |t| > 0 && score(x) < score(t[0]) {
      assert SortedDesc(score, t[1..]);
      InsertWithScore(score, x, t[1..], v);
      assert ([t[0]] + Insert(score, x, t[1..]))[1..] == Insert(score, x, t[1..]);
    } else {
      assert ([x] + t)[1..] == t;
      if score(x) == v && |t| > 0 && score(t[0]) != v {
        NoneAbove(score, t, v);
      }
    }
  }

  /**
   * The sort yields scores in non-increasing order, keeps exactly the same
   * hits, and keeps the relative order of the hits of each score.
   */
  lemma {:induction false} SortDescSpec(score: Hit -> real, s: seq<Hit>)
    ensures SortedDesc(score, SortDesc(score, s))
    ensures multiset(SortDesc(score, s)) == multiset(s) && |SortDesc(score, s)| == |s|
    ensures forall v :: WithScore(score, SortDesc(score, s), v) == WithScore(score, s, v)
  {
    if |s| > 0 {
      var t := SortDesc(score, s[1..]);
      SortDescSpec(score, s[1..]);
      InsertSorted(score, s[0], t);
      InsertMultiset(score, s[0], t);
      forall v ensures WithScore(score, SortDesc(score, s), v) == WithScore(score, s, v) {
        InsertWithScore(score, s[0], t, v);
      }
      assert s == [s[0]] + s[1..];
    }
  }

  /** The cross-encoder's score for a hit: `cross.predict([query, doc])`. */
  function CrossScore(cross: (string, string) -> real, query: string): Hit -> real
  {
    (h: Hit) => cross(query, h.1)
  }

  // ---------------------------------------------------------------------
  // The retriever
  // ---------------------------------------------------------------------

  /**
   * A retriever: the query embedder, the collection, whether to rerank,
   * and the cross-encoder it reranks with.
   */
  class Retriever {
    const embedder: string -> Embedding
    const coll: Index
    const rerank: bool
    const cross: (string, string) -> real

    constructor (embedder: string -> Embedding, coll: Index, rerank: bool, cross: (string, string) -> real)
      ensures this.embedder == embedder && this.coll == coll
      ensures this.rerank == rerank && this.cross == cross
    {
      this.embedder := embedder;
      this.coll := coll;
      this.rerank := rerank;
      this.cross := cross;
    }

    /** `total`: the collection's count, or 0 when counting raises. */
    function Total(): int
    {
      coll.count.GetOr(0)
    }

    /** The hits of the query `search` sends for `k` results. */
    function QueryHits(query: string, k: int, filters: Option<Where>): seq<Hit>
    {
      HitsOf(coll.query([embedder(query)], k, filters.GetOr(map[])))
    }

    /**
     * The hit list before the cut: sorted by descending cross-encoder
     * score when reranking is on and there are hits, else as queried.
     * Either way it holds the same hits.
     */
    function Ranked(query: string, hits: seq<Hit>): (r: seq<Hit>)
      ensures |r| == |hits| && multiset(r) == multiset(hits)
    {
      if rerank && |hits| > 0 then
        SortDescSpec(CrossScore(cross, query), hits);
        SortDesc(CrossScore(cross, query), hits)
      else hits
    }

    /**
     * `search(query, k, out_k, filters)`. An empty or failing index gives
     * no hits; otherwise at most the clamped `out_k` hits, each a hit of
     * the query, and none of them twice more than the query returned it.
     */
    function Search(query: string, k: int, outK: int, filters: Option<Where>): (r: seq<Hit>)
      ensures Total() <= 0 ==> r == []
      ensures Total() > 0 ==>
        var k' := Clamp(k, 1, Total());
        && |r| <= Clamp(outK, 1, k')
        && multiset(r) <= multiset(QueryHits(query, k', filters))
    {
      var total := Total();
      if total <= 0 then []
      else
        var k' := Clamp(k, 1, total);
        var outK' := Clamp(outK, 1, k');
        var ranked := Ranked(query, QueryHits(query, k', filters));
        PrefixMultiset(ranked, outK');
        Take(ranked, outK')
    }

    /**
     * After clamping, `1 <= k <= total` and `1 <= out_k <= k`; the result
     * has `min(out_k, len(hits))` hits, so never more than `out_k`, `k` or
     * `total`, and it is empty only when the query gave no hits.
     */
    lemma SearchBounds(query: string, k: int, outK: int, filters: Option<Where>)
      requires Total() > 0
      ensures var total := Total();
        var k' := Clamp(k, 1, total);
        var outK' := Clamp(outK, 1, k');
        var hits := QueryHits(query, k', filters);
        var r := Search(query, k, outK, filters);
        && 1 <= k' <= total && 1 <= outK' <= k'
        && |r| == (if outK' <= |hits| then outK' else |hits|)
        && |r| <= total
        && (k >= 1 ==> |r| <= k)
        && (outK >= 1 ==> |r| <= outK)
        && (|r| == 0 <==> |hits| == 0)
    {
    }

    /** Without reranking the result is the front of the query's hits, in query order. */
    lemma SearchPlain(query: string, k: int, outK: int, filters: Option<Where>)
      requires Total() > 0 && !rerank
      ensures var hits := QueryHits(query, Clamp(k, 1, Total()), filters);
        var r := Search(query, k, outK, filters);
        r == hits[..|r|]
    {
    }

    /**
     * With reranking the result is the front of the hits stably sorted by
     * descending cross-encoder score: its scores do not increase, and the
     * hits of each score are the first ones of that score in query order.
     */
    lemma SearchReranked(query: string, k: int, outK: int, filters: Option<Where>)
      requires Total() > 0 && rerank
      ensures var hits := QueryHits(query, Clamp(k, 1, Total()), filters);
        var score := CrossScore(cross, query);
        var r := Search(query, k, outK, filters);
        && r == SortDesc(score, hits)[..|r|]
        && SortedDesc(score, r)
        && forall v :: WithScore(score, r, v) <= WithScore(score, hits, v)
    {
      var hits := QueryHits(query, Clamp(k, 1, Total()), filters);
      var score := CrossScore(cross, query);
      var r := Search(query, k, outK, filters);
      var sorted := SortDesc(score, hits);
      SortDescSpec(score, hits);
      if |hits| == 0 {
        assert r == [];
      } else {
        assert r == sorted[..|r|];
        forall v ensures WithScore(score, r, v) <= WithScore(score, hits, v) {
          WithScorePrefix(score, sorted, |r|, v);
        }
      }
    }
  }

  /** Cutting a list keeps, for every score, a front part of the hits of that score. */
  lemma {:induction false} WithScorePrefix(score: Hit -> real, s: seq<Hit>, n: nat, v: real)
    requires n <= |s|
    ensures WithScore(score, s[..n], v) <= WithScore(score, s, v)
  {
    if n > 0 {
      assert s[..n][1..] == s[1..][..n - 1];
      WithScorePrefix(score, s[1..], n - 1, v);
    }
  }

  /** A prefix holds no element more often than the whole list. */
  lemma PrefixMultiset<T>(s: seq<T>, n: int)
    requires n >= 1
    ensures multiset(Take(s, n)) <= multiset(s)
  {
    if n <= |s| {
      assert s == s[..n] + s[n..];
    }
  }
}
