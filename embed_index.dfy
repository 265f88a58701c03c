/**
 * Index records for one episode (pipeline/embed_index.py, `upsert_episode`):
 * each chunk dict becomes an id, a document and a flat metadata record, and
 * the whole batch goes to the vector collection in a single upsert.
 */
module EmbedIndex {
  import opened Wrappers
  import opened Text
  import opened SpeakerTime

  /** What `ch.get("speakers")` finds. */
  datatype SpeakersField =
    | NoSpeakers           // missing, None, or another falsy value
    | NotADict             // present and truthy, but not a dict
    | SpeakerDict(m: SpeakerMap)

  /** A chunk dict; a `None` field is a missing key. */
  datatype ChunkIn = ChunkIn(text: Option<string>, start: Option<real>, end: Option<real>,
                             tokens: Option<int>, speakers: SpeakersField)

  /** The episode dict: `episode_id` and `episode_title`, either of which may be missing. */
  datatype EpisodeMeta = EpisodeMeta(episodeId: Option<string>, episodeTitle: Option<string>)

  /**
   * The primitive-only metadata stored with a chunk. `speakersJson` stands
   * for `json.dumps` of the cleaned map and holds that map.
   */
  datatype Meta = Meta(episodeId: string, episodeTitle: string, startTime: real, endTime: real,
                       tokens: int, nSpeakers: int, topSpeaker: string, topSpeakerSecs: real,
                       speakersJson: SpeakerMap)

  /** The three parallel lists handed to the collection. */
  datatype Batch = Batch(ids: seq<string>, docs: seq<string>, metas: seq<Meta>)

  /** `speakers_clean`: a dict is copied pair by pair; anything else gives `{}`. */
  function CleanSpeakers(f: SpeakersField): SpeakerMap
  {
    match f
    case SpeakerDict(m) => Rebuild(m)
    case _ => []
  }

  /**
   * `max(d, key=d.get)` over a non-empty dict: the position of the first
   * key whose value no other value exceeds.
   */
  function ArgMax(m: SpeakerMap): (r: nat)
    requires |m| > 0
    ensures r < |m|
    ensures forall i :: 0 <= i < |m| ==> m[i].1 <= m[r].1
    ensures forall i :: 0 <= i < r ==> m[i].1 < m[r].1
  {
    if |m| == 1 then 0
    else
      var b := ArgMax(m[..|m| - 1]);
      if m[|m| - 1].1 > m[b].1 then |m| - 1 else b
  }

  /** `f"{episode_id}_{idx}"` */
  function ChunkId(episodeId: string, idx: nat): string
  {
    episodeId + "_" + NatToString(idx)
  }

  /** The metadata record for one chunk. */
  function ChunkMeta(em: EpisodeMeta, ch: ChunkIn): Meta
  {
    var start := ch.start.GetOr(0.0);
    var clean := CleanSpeakers(ch.speakers);
    var top := if |clean| > 0 then clean[ArgMax(clean)].0 else "";
    var secs := if |clean| > 0 then Get(clean, top) else 0.0;
    Meta(em.episodeId.GetOr(""), em.episodeTitle.GetOr(""), start, ch.end.GetOr(start),
         ch.tokens.GetOr(0), |clean|, top, secs, clean)
  }

  /**
   * The lists `upsert_episode` builds, or `None` when it raises: the first
   * chunk's id needs `episode_meta['episode_id']`.
   */
  function BatchOf(chunks: seq<ChunkIn>, em: EpisodeMeta): Option<Batch>
  {
    if |chunks| > 0 && em.episodeId.None? then None
    else
      var e := em.episodeId.GetOr("");
      Some(Batch(seq(|chunks|, i requires 0 <= i < |chunks| => ChunkId(e, i)),
                 seq(|chunks|, i requires 0 <= i < |chunks| => chunks[i].text.GetOr("")),
                 seq(|chunks|, i requires 0 <= i < |chunks| => ChunkMeta(em, chunks[i]))))
  }

  /** The loop of `upsert_episode`: one id, document and metadata record per chunk. */
  method BuildBatch(chunks: seq<ChunkIn>, em: EpisodeMeta) returns (r: Option<Batch>)
    ensures r == BatchOf(chunks, em)
  {
    var ids: seq<string> := [];
    var docs: seq<string> := [];
    var metas: seq<Meta> := [];
    assert BatchOf(chunks[..0], em).value == Batch([], [], []) by {
      var b := BatchOf(chunks[..0], em).value;
      assert b.ids == [] && b.docs == [] && b.metas == [];
    }
    for idx := 0 to |chunks|
      invariant idx > 0 ==> em.episodeId.Some?
      invariant BatchOf(chunks[..idx], em) == Some(Batch(ids, docs, metas))
    {
      if em.episodeId.None? {
        return None;
      }
      var text := chunks[idx].text.GetOr("");
      var meta := ChunkMeta(em, chunks[idx]);
      BatchOfSnoc(chunks, em, idx);
      ids := ids + [ChunkId(em.episodeId.value, idx)];
      docs := docs + [text];
      metas := metas + [meta];
    }
    assert chunks[..|chunks|] == chunks;
    r := Some(Batch(ids, docs, metas));
  }

  /** One more chunk adds its id, document and metadata record at the end of each list. */
  lemma BatchOfSnoc(chunks: seq<ChunkIn>, em: EpisodeMeta, idx: nat)
    requires idx < |chunks| && em.episodeId.Some?
    ensures var b, b' := BatchOf(chunks[..idx], em).value, BatchOf(chunks[..idx + 1], em).value;
      && BatchOf(chunks[..idx + 1], em).Some?
      && b'.ids == b.ids + [ChunkId(em.episodeId.value, idx)]
      && b'.docs == b.docs + [chunks[idx].text.GetOr("")]
      && b'.metas == b.metas + [ChunkMeta(em, chunks[idx])]
  {
    var b, b' := BatchOf(chunks[..idx], em).value, BatchOf(chunks[..idx + 1], em).value;
    assert b'.ids == b.ids + [ChunkId(em.episodeId.value, idx)];
    assert b'.docs == b.docs + [chunks[idx].text.GetOr("")];
    assert b'.metas == b.metas + [ChunkMeta(em, chunks[idx])];
  }

  // ---------------------------------------------------------------------
  // The collection
  // ---------------------------------------------------------------------

  type Embedding = seq<real>

  /** What the collection keeps under an id. */
  datatype Stored = Stored(doc: string, meta: Meta, embedding: Embedding)

  /** The records after an upsert of `ids[k] ↦ (docs[k], metas[k], embs[k])` in order. */
  function Upserted(recs: map<string, Stored>, ids: seq<string>, docs: seq<string>,
                    metas: seq<Meta>, embs: seq<Embedding>): (r: map<string, Stored>)
    requires |ids| == |docs| == |metas| == |embs|
    ensures forall x :: x in r <==> x in recs || x in ids
  {
    if |ids| == 0 then recs
    else
      var n := |ids| - 1;
      assert ids == ids[..n] + [ids[n]];
      Upserted(recs, ids[..n], docs[..n], metas[..n], embs[..n])[ids[n] := Stored(docs[n], metas[n], embs[n])]
  }

  /**
   * The vector collection, as a map from id to stored record; `upserts`
   * counts the calls made to it.
   */
  class Collection {
    var records: map<string, Stored>
    ghost var upserts: nat

    constructor ()
      ensures records == map[] && upserts == 0
    {
      records := map[];
      upserts := 0;
    }

    /** `coll.upsert(ids=..., documents=..., metadatas=..., embeddings=...)` */
    method Upsert(ids: seq<string>, docs: seq<string>, metas: seq<Meta>, embs: seq<Embedding>)
      requires |ids| == |docs| == |metas| == |embs|
      modifies this
      ensures records == Upserted(old(records), ids, docs, metas, embs)
      ensures upserts == old(upserts) + 1
    {
      records := Upserted(records, ids, docs, metas, embs);
      upserts := upserts + 1;
    }
  }

  /** `emb.encode(docs)`: the embedder applied to every document. */
  function Encode(embed: string -> Embedding, docs: seq<string>): (r: seq<Embedding>)
    ensures |r| == |docs| && forall i :: 0 <= i < |docs| ==> r[i] == embed(docs[i])
  {
    seq(|docs|, i requires 0 <= i < |docs| => embed(docs[i]))
  }

  /**
   * `upsert_episode(chunks, episode_meta)`. `raised` is the `KeyError` of a
   * missing episode id; then, and when there are no chunks, the collection
   * is left alone; otherwise it receives exactly one upsert with every
   * record.
   */
  method UpsertEpisode(coll: Collection, chunks: seq<ChunkIn>, em: EpisodeMeta, embed: string -> Embedding)
    returns (raised: bool)
    modifies coll
    ensures raised <==> BatchOf(chunks, em).None?
    ensures raised || |chunks| == 0 ==> coll.records == old(coll.records) && coll.upserts == old(coll.upserts)
    ensures !raised && |chunks| > 0 ==>
      var b := BatchOf(chunks, em).value;
      && coll.upserts == old(coll.upserts) + 1
      && coll.records == Upserted(old(coll.records), b.ids, b.docs, b.metas, Encode(embed, b.docs))
  {
    var r := BuildBatch(chunks, em);
    if r.None? {
      return true;
    }
    var b := r.value;
    if |b.docs| > 0 {
      var embeddings := Encode(embed, b.docs);
      coll.Upsert(b.ids, b.docs, b.metas, embeddings);
    }
    return false;
  }

  // ---------------------------------------------------------------------
  // Properties
  // ---------------------------------------------------------------------

  /**
   * The three lists have one entry per chunk and entry `i` comes from
   * chunk `i`; the call fails exactly when there are chunks and no
   * episode id.
   */
  lemma BatchShape(chunks: seq<ChunkIn>, em: EpisodeMeta)
    ensures BatchOf(chunks, em).None? <==> |chunks| > 0 && em.episodeId.None?
    ensures BatchOf(chunks, em).Some? ==>
      var b := BatchOf(chunks, em).value;
      && |b.ids| == |b.docs| == |b.metas| == |chunks|
      && forall i :: 0 <= i < |chunks| ==>
           && b.ids[i] == em.episodeId.GetOr("") + "_" + NatToString(i)
           && b.docs[i] == chunks[i].text.GetOr("")
           && b.metas[i] == ChunkMeta(em, chunks[i])
  {
  }

  /** In an id, a separator can only sit at or before the end of the episode id. */
  lemma SeparatorPosition(e: string, idx: nat, p: nat)
    requires p < |ChunkId(e, idx)| && ChunkId(e, idx)[p] == '_'
    ensures p <= |e|
  {
    var d := NatToString(idx);
    assert forall q :: |e| < q < |ChunkId(e, idx)| ==> ChunkId(e, idx)[q] == d[q - |e| - 1];
  }

  /**
   * Ids identify their chunk: equal ids come from the same episode id and
   * the same index, since the index digits hold no `_`.
   */
  lemma ChunkIdInjective(e1: string, i1: nat, e2: string, i2: nat)
    requires ChunkId(e1, i1) == ChunkId(e2, i2)
    ensures e1 == e2 && i1 == i2
  {
    var s := ChunkId(e1, i1);
    assert s[|e1|] == '_' && s[|e2|] == ChunkId(e2, i2)[|e2|] == '_';
    SeparatorPosition(e2, i2, |e1|);
    SeparatorPosition(e1, i1, |e2|);
    assert e1 == s[..|e1|] == e2;
    assert NatToString(i1) == s[|e1| + 1..] == NatToString(i2);
    NatToStringInjective(i1, i2);
  }

  /** The ids of one call are pairwise distinct. */
  lemma IdsDistinct(chunks: seq<ChunkIn>, em: EpisodeMeta, i: nat, j: nat)
    requires BatchOf(chunks, em).Some?
    requires i < j < |chunks|
    ensures BatchOf(chunks, em).value.ids[i] != BatchOf(chunks, em).value.ids[j]
  {
    var e := em.episodeId.GetOr("");
    if ChunkId(e, i) == ChunkId(e, j) {
      ChunkIdInjective(e, i, e, j);
    }
  }

  /**
   * Missing fields take their defaults: empty text, start 0, end equal to
   * start, no tokens; every chunk carries the same episode id and title.
   */
  lemma MetaDefaults(em: EpisodeMeta, ch: ChunkIn)
    ensures var m := ChunkMeta(em, ch);
      && m.startTime == (if ch.start.Some? then ch.start.value else 0.0)
      && m.endTime == (if ch.end.Some? then ch.end.value else m.startTime)
      && m.tokens == (if ch.tokens.Some? then ch.tokens.value else 0)
      && m.episodeId == (if em.episodeId.Some? then em.episodeId.value else "")
      && m.episodeTitle == (if em.episodeTitle.Some? then em.episodeTitle.value else "")
  {
  }

  /** Without a speaker dict, the summary says no speakers. */
  lemma NoSpeakerSummary(em: EpisodeMeta, ch: ChunkIn)
    requires !ch.speakers.SpeakerDict? || |ch.speakers.m| == 0
    ensures var m := ChunkMeta(em, ch);
      m.nSpeakers == 0 && m.topSpeaker == "" && m.topSpeakerSecs == 0.0 && m.speakersJson == []
  {
  }

  /**
   * With a speaker dict, the cleaned map is that dict; `n_speakers` counts
   * its keys; `top_speaker` is the key at the first position whose seconds
   * no other speaker exceeds, and `top_speaker_secs` is its seconds.
   */
  lemma TopSpeaker(em: EpisodeMeta, ch: ChunkIn)
    requires ch.speakers.SpeakerDict? && |ch.speakers.m| > 0
    requires DistinctKeys(ch.speakers.m)
    ensures var d, m := ch.speakers.m, ChunkMeta(em, ch);
      var t := ArgMax(d);
      && m.speakersJson == d
      && m.nSpeakers == |d|
      && m.topSpeaker == d[t].0
      && m.topSpeakerSecs == d[t].1
  {
    var d := ch.speakers.m;
    RebuildDict(d);
    GetAt(d, d[ArgMax(d)].0);
  }

  /** The cleaned map is always a dict, so `n_speakers` counts distinct speakers. */
  lemma CleanIsDict(f: SpeakersField)
    ensures DistinctKeys(CleanSpeakers(f))
  {
    if f.SpeakerDict? {
      RebuildDict(f.m);
    }
  }

  /** With distinct ids, each batch id holds its own document, metadata and embedding. */
  lemma {:induction false} UpsertedAt(recs: map<string, Stored>, ids: seq<string>, docs: seq<string>,
                                      metas: seq<Meta>, embs: seq<Embedding>, k: nat)
    requires |ids| == |docs| == |metas| == |embs|
    requires forall i, j :: 0 <= i < j < |ids| ==> ids[i] != ids[j]
    requires k < |ids|
    ensures Upserted(recs, ids, docs, metas, embs)[ids[k]] == Stored(docs[k], metas[k], embs[k])
  {
    var n := |ids| - 1;
    if k < n {
      UpsertedAt(recs, ids[..n], docs[..n], metas[..n], embs[..n], k);
      assert ids[k] != ids[n];
    }
  }

  /** An id outside the batch keeps its old record. */
  lemma {:induction false} UpsertedOthers(recs: map<string, Stored>, ids: seq<string>, docs: seq<string>,
                                          metas: seq<Meta>, embs: seq<Embedding>, x: string)
    requires |ids| == |docs| == |metas| == |embs|
    requires x in recs && x !in ids
    ensures Upserted(recs, ids, docs, metas, embs)[x] == recs[x]
  {
    if |ids| > 0 {
      var n := |ids| - 1;
      assert x !in ids[..n] && x != ids[n];
      UpsertedOthers(recs, ids[..n], docs[..n], metas[..n], embs[..n], x);
    }
  }

  /** Upserting the same batch twice leaves what upserting it once leaves. */
  lemma UpsertIdempotent(recs: map<string, Stored>, ids: seq<string>, docs: seq<string>,
                         metas: seq<Meta>, embs: seq<Embedding>)
    requires |ids| == |docs| == |metas| == |embs|
    requires forall i, j :: 0 <= i < j < |ids| ==> ids[i] != ids[j]
    ensures var once := Upserted(recs, ids, docs, metas, embs);
      Upserted(once, ids, docs, metas, embs) == once
  {
    var once := Upserted(recs, ids, docs, metas, embs);
    var twice := Upserted(once, ids, docs, metas, embs);
    assert twice.Keys == once.Keys;
    forall x | x in once ensures twice[x] == once[x] {
      if x in ids {
        var k :| 0 <= k < |ids| && ids[k] == x;
        UpsertedAt(recs, ids, docs, metas, embs, k);
        UpsertedAt(once, ids, docs, metas, embs, k);
      } else {
        UpsertedOthers(once, ids, docs, metas, embs, x);
      }
    }
  }

  /**
   * Re-ingesting an episode with fewer chunks leaves the surplus chunks of
   * the earlier ingestion in place: the id of chunk `j` of the same
   * episode, for `j` past the new batch, keeps its old record.
   */
  lemma StaleChunksRemain(recs: map<string, Stored>, chunks: seq<ChunkIn>, em: EpisodeMeta,
                          embed: string -> Embedding, j: nat)
    requires BatchOf(chunks, em).Some? && em.episodeId.Some?
    requires j >= |chunks| && ChunkId(em.episodeId.value, j) in recs
    ensures var b := BatchOf(chunks, em).value;
      var x := ChunkId(em.episodeId.value, j);
      Upserted(recs, b.ids, b.docs, b.metas, Encode(embed, b.docs))[x] == recs[x]
  {
    var b := BatchOf(chunks, em).value;
    var e := em.episodeId.value;
    var x := ChunkId(e, j);
    if x in b.ids {
      var i :| 0 <= i < |b.ids| && b.ids[i] == x;
      ChunkIdInjective(e, i, e, j);
    }
    UpsertedOthers(recs, b.ids, b.docs, b.metas, Encode(embed, b.docs), x);
  }
}
