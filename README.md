# podcast-rag-model in Dafny

This project models the text pipeline of a podcast retrieval system and proves properties of it. The pipeline:

1. labels transcribed words with diarization speakers;
2. groups the words into sentences that carry how long each speaker talks;
3. packs sentences into overlapping windows of about a target number of estimated tokens;
4. turns the windows into flat index records and upserts them into a vector collection;
5. shapes search results: clamps `k` and `out_k`, zips the query lists, optionally reranks stably by cross-encoder score, then cuts;
6. renders timestamps as `MM:SS`.

Modules, one or two per source file:

- `Align` (`align.dfy`): `assign_speakers` and `sentences_from_words`. `AssignSpeakers` works in place on an `array<Word>` with a monotone turn cursor. `SentencesFromWords` is the buffered loop, proved equal to the functional reference `Sentences`.
- `Chunk` (`chunk.dfy`): `time_aware_windows` and `est_tokens`. The nested loops (`TimeAwareWindows`, `FillWindow`, `MergeSpeakers`) are proved equal to `Windows`, and the window properties are proved about that function.
- `EmbedIndex` (`embed_index.dfy`): `upsert_episode`. The collection is a class holding an id → record map.
- `Retrieve` (`retrieve.dfy`): `Retriever.search`. The collection's `count` and `query`, the query embedder and the cross-encoder are values the retriever holds.
- `Components` (`components.dfy`): `ts_to_mmss` and `audio_fragment_tag`.
- `SpeakerTime` (`speaker_time.dfy`): the `{speaker: seconds}` dicts, modelled as association lists in insertion order so `max` tie-breaks and `items()` order are exact.
- `Text` (`text.dfy`): `" ".join`, `str(n)` and `len(t.split())`.
- `Seqs` and `Wrappers`: small sequence lemmas and `Option`.

Modelling choices:

- **Numbers.** Times, durations, scores and `overlap` are `real`. Python's `int()` truncation is modelled explicitly (`Chunk.Trunc`). The factor 1.3 is the exact ratio 13/10.
- **Missing keys.** A missing dict key is `None` in an `Option` field.
- **Exceptions.** The `KeyError` of a missing `episode_id` is the `raised` result of `UpsertEpisode`.
- **Non-empty input.** `time_aware_windows` needs `target_tokens > 0` when there are sentences. With `target_tokens <= 0`, the inner loop adds nothing and `cur[-1]` raises, so the model requires a positive target only for non-empty input.
- **Replace semantics.** `upsert_episode` has no delete-then-insert replace step and sends all records of an episode in a single batch. `EmbedIndex.StaleChunksRemain` shows that records left over from a longer earlier ingestion survive a re-run.

## Model

| member | source | states |
|---|---|---|
| Align.Advance | pipeline/align.py:6-7 | the inner `while` moves the cursor forward only past turns that end before the word starts, never beyond the last turn, and stops at a turn ending at or after the start or at the last turn |
| Align.CursorAfter | pipeline/align.py:4-7 | the cursor is always an index of `turns` (0 when there are none) |
| Align.AdvanceCursor | pipeline/align.py:6-7 | the imperative inner loop computes exactly `Advance` |
| Align.AssignSpeakers | pipeline/align.py:3-10 | in place, every word keeps its text and times and gets only its `speaker` field set to the label under the cursor; length and order are unchanged |
| Align.CursorMonotone | pipeline/align.py:4-7 | the cursor never decreases from one word to a later one and stays below `len(turns)` |
| Align.CursorStep | pipeline/align.py:5-7 | each word moves the cursor from the previous word's position to the first turn at or after it that does not end before the word starts, or to the last turn |
| Align.LabelRule | pipeline/align.py:8 | a word gets the cursor turn's speaker exactly when that turn contains its start, both ends included, and "UNK" otherwise |
| Align.NoTurnsAllUnknown | pipeline/align.py:8 | with no turns every word is "UNK" |
| Align.FirstCovering | pipeline/align.py:8 | reference definition: the earliest turn containing an instant |
| Align.CursorPassed | pipeline/align.py:5-7 | with words in time order, every turn the cursor passed ended before the current word's start |
| Align.AlignmentDeterminism | pipeline/align.py:3-10 | with turns sorted by start (as ingestion sorts them) and words in time order, a word gets the speaker of the earliest turn containing its start, and "UNK" exactly when no turn contains it |
| Align.SortedCursorCovers | pipeline/align.py:6-8 | with sorted turns, a cursor that stopped at or before a turn containing the instant also contains it |
| Align.SingleTurn | pipeline/align.py:6-8 | with one turn the cursor never moves, and a word is labelled with it exactly when it contains the word's start |
| Align.FallbackTurnLabelsAll | pipeline/ingest.py:118-121 | the ingestion fallback turn spanning first start to last end labels every time-ordered word with its speaker |
| Align.SplitWords | pipeline/align.py:15-23 | every flushed group is non-empty |
| Align.SentencesFromWords | pipeline/align.py:12-27 | the buffered loop returns exactly the reference `Sentences` of its input |
| Align.TallySpeakers | pipeline/align.py:20-21 | the speaker loop computes the tally `Tally` of the buffer |
| Align.SplitKeepsWords | pipeline/align.py:13-23 | the flushed groups followed by the remaining buffer are the input words, in order |
| Align.SplitBoundaries | pipeline/align.py:16-17 | every flushed group meets the flush test (terminal punctuation or buffered length ≥ `max_chars`) and no shorter prefix of it did; the leftover buffer never met it |
| Align.PartsCoverWords | pipeline/align.py:13-27 | one sentence per non-empty part, the parts concatenate to the input, and empty input gives no sentences |
| Align.SentencesFromParts | pipeline/align.py:18-26 | sentence `k` is built from part `k`: flushed groups first, trailing buffer last |
| Align.SentencesShape | pipeline/align.py:18-26 | each sentence's text is the space-join of its words' texts, its start the first word's start and its end the last word's end; in-loop sentences carry the tally, the trailing one its single entry |
| Align.SentencesKeepText | pipeline/align.py:13-27 | joining the sentence texts gives the space-join of all word texts: no word is lost or reordered |
| Align.TallyGet | pipeline/align.py:21 | an in-loop sentence maps each speaker to the summed `end - start` of that speaker's words |
| Align.TallyDistinct | pipeline/align.py:20-21 | the tally is a dict (no speaker twice) |
| Align.TallyTotal | pipeline/align.py:21 | the tally's values add up to the member words' total duration |
| Align.TrailingMapDiffers | pipeline/align.py:26 | the trailing sentence's map is not the tally: two words of two speakers give one entry spanning both |
| Chunk.Trunc | pipeline/chunk.py:2 | `int()` truncates toward zero |
| Chunk.EstTokens | pipeline/chunk.py:2 | the estimate is at least 1 |
| Chunk.EstTokensBounds | pipeline/chunk.py:2 | the estimate is `floor(1.3 * words)` for text with at least one word, exactly 1 for text with none, and never below the word count |
| Chunk.TokensAtLeastCount | pipeline/chunk.py:9-11 | a run of sentences counts at least one token per sentence |
| Chunk.Reach | pipeline/chunk.py:9-12 | the inner loop ends inside the input, does nothing once the target is met, and takes at least one sentence when one remains and the target is not met |
| Chunk.ReachLaw | pipeline/chunk.py:9-12 | the inner loop stops at the end of the input or once the tokens reach the target, and every earlier count was below it |
| Chunk.WindowEndLaw | pipeline/chunk.py:9-12 | with a positive target a window is non-empty, reaches the target or the last sentence, and every shorter run was below the target |
| Chunk.Step | pipeline/chunk.py:20 | the step is at least 1 |
| Chunk.StepBounds | pipeline/chunk.py:20 | with a non-negative overlap the step never exceeds the window length; overlap 0 steps exactly over it |
| Chunk.StartsLaw | pipeline/chunk.py:4-21 | window starts begin at 0, stay inside the input, follow the step rule, the step after the last one leaves the input, and there are at most as many as sentences |
| Chunk.WindowsAtStarts | pipeline/chunk.py:4-21 | window `k` is the window built at the `k`-th start, and there is one window per start |
| Chunk.TimeAwareWindows | pipeline/chunk.py:1-22 | the nested loops return exactly the reference `Windows` |
| Chunk.EmitWindow | pipeline/chunk.py:19-21 | appending the window and stepping keeps the outer loop's invariant |
| Chunk.FillWindow | pipeline/chunk.py:6-12 | the inner loop gathers exactly the sentences up to the window end, with their summed estimate |
| Chunk.MergeSpeakers | pipeline/chunk.py:15-18 | the nested speaker loops compute the pointwise sum of the sentences' maps |
| Chunk.WindowCount | pipeline/chunk.py:4-5 | there are no windows exactly when there are no sentences, and never more windows than sentences |
| Chunk.WindowContent | pipeline/chunk.py:7-19 | a window is a non-empty contiguous run of whole sentences from its start: `start` is the first one's start, `end` the last one's end, `text` their space-join, `tokens` their summed estimate (at least one per sentence), the target was met unless the run hit the end, and every shorter run was below the target |
| Chunk.WindowSpeakers | pipeline/chunk.py:15-18 | a window's speaker map gives each speaker the sum of that speaker's seconds over its sentences, and is a dict |
| Chunk.StartsIncrease | pipeline/chunk.py:20-21 | window starts strictly increase |
| Chunk.CoverFrom | pipeline/chunk.py:4-21 | with a non-negative overlap, every sentence from `i` on lies in the window `CoveringWindow` names |
| Chunk.WindowsCover | pipeline/chunk.py:4-21 | with a non-negative overlap every sentence lies in some window: none is skipped |
| Chunk.NoOverlapTiles | pipeline/chunk.py:20-21 | with overlap 0 each window starts where the previous one ended and the last ends at the last sentence |
| SpeakerTime.Find | pipeline/align.py:21 | the lookup finds the first pair with the key, or reports that none has it |
| SpeakerTime.GetAt | pipeline/align.py:21 | in a dict, `get` returns the value stored at the key, and 0 for an absent key |
| SpeakerTime.AddGet | pipeline/align.py:21 | `m[k] = m.get(k, 0) + v` adds `v` at `k` and changes no other key |
| SpeakerTime.AddKeys | pipeline/chunk.py:18 | existing keys keep their place, a new key goes last, and a dict stays a dict |
| SpeakerTime.AddTotal | pipeline/align.py:21 | adding `v` to one speaker adds `v` to the total |
| SpeakerTime.MergeGet | pipeline/chunk.py:17-18 | merging a dict into the accumulator adds them pointwise and keeps a dict a dict |
| SpeakerTime.SumMapsGet | pipeline/chunk.py:15-18 | the merged window map gives each speaker the sum of its values over all maps |
| SpeakerTime.PutDistinct | pipeline/embed_index.py:96 | storing into a dict keeps it a dict |
| SpeakerTime.RebuildDict | pipeline/embed_index.py:96 | the dict comprehension always yields a dict, and leaves a dict unchanged |
| Text.JoinAppend | pipeline/align.py:18 | joining two non-empty runs puts exactly one space between them |
| Text.JoinOfJoins | pipeline/chunk.py:14 | joining joined non-empty runs equals joining all the parts |
| Text.NatToString | pipeline/embed_index.py:107 | `str(n)` is a non-empty string of digits, one digit exactly below 10, with no leading zero for `n >= 1` |
| Text.NatToStringRoundTrip | pipeline/embed_index.py:107 | reading the digits back gives `n` |
| Text.NatToStringInjective | pipeline/embed_index.py:107 | distinct numbers render differently |
| Text.CountRunsBounds | pipeline/chunk.py:2 | word runs are never more than characters, and none exactly when all characters are whitespace |
| Text.WordCountBounds | pipeline/chunk.py:2 | `len(t.split())` is at most `len(t)`, and 0 exactly for all-whitespace text |
| EmbedIndex.ArgMax | pipeline/embed_index.py:102 | the position of the first key whose seconds no other key exceeds |
| EmbedIndex.BuildBatch | pipeline/embed_index.py:84-130 | the loop builds exactly `BatchOf`, and reports the `KeyError` of a missing episode id when there are chunks |
| EmbedIndex.BatchOfSnoc | pipeline/embed_index.py:107-130 | each chunk appends its id, document and metadata at the end of the three lists |
| EmbedIndex.Upserted | pipeline/embed_index.py:134 | after an upsert the collection holds exactly the old ids and the batch ids |
| EmbedIndex.Collection.Upsert | pipeline/embed_index.py:134 | one upsert call replaces or inserts every record of the batch |
| EmbedIndex.UpsertEpisode | pipeline/embed_index.py:69-134 | a missing episode id with chunks raises and changes nothing; no chunks changes nothing; otherwise exactly one upsert of all the records with their embeddings |
| EmbedIndex.BatchShape | pipeline/embed_index.py:84-130 | the call fails exactly when there are chunks and no episode id; otherwise one id, document and record per chunk, id `"{episode_id}_{idx}"` |
| EmbedIndex.SeparatorPosition | pipeline/embed_index.py:107 | in an id, an underscore can only sit at or before the end of the episode id |
| EmbedIndex.ChunkIdInjective | pipeline/embed_index.py:107 | equal ids come from the same episode id and index |
| EmbedIndex.IdsDistinct | pipeline/embed_index.py:107 | the ids of one call are pairwise distinct |
| EmbedIndex.MetaDefaults | pipeline/embed_index.py:88-120 | missing fields take their defaults: start 0, end = start, tokens 0, empty episode id and title |
| EmbedIndex.NoSpeakerSummary | pipeline/embed_index.py:94-128 | without a non-empty speaker dict: 0 speakers, top speaker "", 0 seconds, empty map |
| EmbedIndex.TopSpeaker | pipeline/embed_index.py:94-128 | with a speaker dict: the stored map is that dict, `n_speakers` its size, `top_speaker` the first key with maximal seconds and `top_speaker_secs` its seconds |
| EmbedIndex.CleanIsDict | pipeline/embed_index.py:94-98 | the cleaned map is always a dict |
| EmbedIndex.UpsertedAt | pipeline/embed_index.py:134 | with distinct ids, each batch id holds its own document, metadata and embedding |
| EmbedIndex.UpsertedOthers | pipeline/embed_index.py:134 | ids outside the batch keep their old records: nothing is deleted |
| EmbedIndex.UpsertIdempotent | pipeline/embed_index.py:134 | upserting the same batch twice leaves what upserting it once leaves |
| EmbedIndex.StaleChunksRemain | pipeline/embed_index.py:107-134 | re-ingesting an episode with fewer chunks leaves the surplus chunk records of the earlier ingestion in place |
| Retrieve.Clamp | pipeline/retrieve.py:74-75 | `max(lo, min(x, hi))` lies in `[lo, hi]`: `x` when inside, `hi` above, `lo` below |
| Retrieve.Zip3 | pipeline/retrieve.py:85 | as long as the shortest list, and position `i` pairs the `i`-th entries |
| Retrieve.Take | pipeline/retrieve.py:95 | `hits[:n]` is the prefix of length `min(n, len(hits))` |
| Retrieve.InsertMultiset | pipeline/retrieve.py:93 | inserting adds exactly one element |
| Retrieve.InsertSorted | pipeline/retrieve.py:93 | inserting keeps a list sorted by descending score |
| Retrieve.InsertWithScore | pipeline/retrieve.py:93 | among equal scores, the inserted earlier hit goes first |
| Retrieve.SortDescSpec | pipeline/retrieve.py:93 | the sort gives non-increasing scores, is a permutation, and keeps the relative order of the hits of every score |
| Retrieve.Retriever.Ranked | pipeline/retrieve.py:88-93 | the list before the cut is a permutation of the hits |
| Retrieve.Retriever.Search | pipeline/retrieve.py:66-95 | a failing or empty count gives `[]`; otherwise at most the clamped `out_k` hits, none more often than the query returned it |
| Retrieve.Retriever.SearchBounds | pipeline/retrieve.py:74-95 | `1 <= k <= total` and `1 <= out_k <= k` after clamping; the result has `min(out_k, len(hits))` hits, so at most `out_k`, `k` and `total`, and is empty only when the query gave none |
| Retrieve.Retriever.SearchPlain | pipeline/retrieve.py:85-95 | without rerank the result is the front of the query's hits in query order |
| Retrieve.Retriever.SearchReranked | pipeline/retrieve.py:88-95 | with rerank the result is the front of the stably sorted hits: scores do not increase, and for every score its hits are the first ones of that score in query order |
| Retrieve.WithScorePrefix | pipeline/retrieve.py:95 | cutting a list keeps a leading part of each score's hits |
| Retrieve.PrefixMultiset | pipeline/retrieve.py:95 | a prefix holds no element more often than the list |
| Components.Pad2 | app/components.py:3 | `f"{n:02d}"` has at least two characters, exactly two for 0..99, only digits for non-negative `n`, no leading zero from 10 on, and a leading sign for negative `n` |
| Components.Fields | app/components.py:2 | the seconds field lies in `[0, 60)`, `60*m + s` is the floor of `t`, and `m >= 0` for `t >= 0` |
| Components.ColonAt | app/components.py:3 | the position of the first `:` |
| Components.Pad2Value | app/components.py:3 | zero padding does not change the value read back |
| Components.MmssRoundTrip | app/components.py:1-3 | for `t >= 0` the label reads back as the whole seconds of `t` |
| Components.MmssLength | app/components.py:3 | for `0 <= t < 6000` the label has exactly five characters with `:` third |
| Components.TagNamesStart | app/components.py:5-6 | the tag is "Start at " followed by exactly `ts_to_mmss(start)`, which reads back as the start's whole seconds; two audio paths give the same tag |

## Left out

- Floating point: `* 1.3`, `1 - overlap`, durations and scores are exact reals. Rounding that differs from IEEE doubles, NaN scores and infinities are not modelled.
- The `str()`, `float()` and `int()` coercions of `upsert_episode`. Chunk fields are taken to already hold their types, and a key present with the value `None` is not modelled.
- A word without a `speaker` key reaching `sentences_from_words` (a `KeyError` in the source) is not modelled: `Word` always has a speaker.
- `json.dumps` of the speaker map: `speakersJson` holds the cleaned map instead of its serialization.
- Chroma, Whisper, pyannote, SentenceTransformers and the cross-encoder are foreign code. The collection is an id → record map, the embedder a function per document, the query an abstract function of the embedding, `n_results` and filter, and the cross-encoder a score per `(query, doc)` pair.
- Retrieve.Retriever.Search: reads the query answer's lists as the first of one list per query embedding. An outer list that is empty (an `IndexError` in the source) or `None` is not modelled, and neither is an exception raised by `query` itself.
- EmbedIndex.Encode: the batch encoder is modelled as one function applied to each document, so the embedding of a document is taken to be independent of the rest of the batch.
- Aliasing: `assign_speakers` returns the same list object it mutated; the model mutates the array and returns nothing.
- Lazy singletons (`_EMBEDDER`, `_COLL`, `_CROSS`), telemetry patches, the sqlite module swap, `pipeline/ingest.py` (audio, transcription and diarization I/O), `app/streamlit_app.py` and `app/prompts.py` are not part of this model. The turn sort and the single-speaker fallback turn of ingestion appear only as assumptions (`Align.AlignmentDeterminism`, `Align.FallbackTurnLabelsAll`).
- Chunk.TimeAwareWindows: requires `target_tokens > 0` when there are sentences, because the source raises on `cur[-1]` otherwise. The raising path itself is not modelled.
- Components.TsToMmss: takes `t` as an exact real. Float values of `t // 60` and `t % 60` that round differently are not modelled.
