/**
 * Speaker alignment and sentence building (pipeline/align.py).
 *
 * `AssignSpeakers` labels transcribed words in place with the speaker of
 * the diarization turn under a monotone cursor; `SentencesFromWords`
 * buffers labelled words into sentences with per-speaker seconds.
 */
module Align {
  import opened Text
  import opened SpeakerTime

  /** A transcribed word. `speaker` is the field `AssignSpeakers` sets; before that its value is irrelevant. */
  datatype Word = Word(text: string, start: real, end: real, speaker: string)

  /** A diarization turn. */
  datatype Turn = Turn(speaker: string, start: real, end: real)

  /** A sentence: space-joined text, time span and seconds spoken per speaker. */
  datatype Sentence = Sentence(text: string, start: real, end: real, speakers: SpeakerMap)

  const Unknown := "UNK"

  // ---------------------------------------------------------------------
  // Speaker alignment
  // ---------------------------------------------------------------------

  /** The turn interval contains the instant, both ends included. */
  predicate Covers(t: Turn, x: real)
  {
    t.start <= x <= t.end
  }

  /** A cursor value the loop can hold: an index of `turns`, or 0 when there are none. */
  predicate CursorOk(turns: seq<Turn>, j: nat)
  {
    j < |turns| || j == 0
  }

  /**
   * The inner `while` of the loop: from cursor `j`, move past the turns
   * that end before `x`, but never past the last turn.
   */
  function Advance(turns: seq<Turn>, j: nat, x: real): (r: nat)
    requires CursorOk(turns, j)
    ensures CursorOk(turns, r) && j <= r
    ensures forall m :: j <= m < r ==> turns[m].end < x
    ensures r + 1 >= |turns| || x <= turns[r].end
    decreases |turns| - j
  {
    if j + 1 < |turns| && turns[j].end < x then Advance(turns, j + 1, x) else j
  }

  /** Value of the cursor `j` after the first `n` words have been labelled. */
  function CursorAfter(words: seq<Word>, turns: seq<Turn>, n: nat): (j: nat)
    requires n <= |words|
    ensures CursorOk(turns, j)
  {
    if n == 0 then 0 else Advance(turns, CursorAfter(words, turns, n - 1), words[n - 1].start)
  }

  /** The label `AssignSpeakers` gives word `i`. */
  function SpeakerAt(words: seq<Word>, turns: seq<Turn>, i: nat): string
    requires i < |words|
  {
    Label(turns, CursorAfter(words, turns, i + 1), words[i].start)
  }

  /** The label given to instant `x` with the cursor at `j`. */
  function Label(turns: seq<Turn>, j: nat, x: real): string
    requires CursorOk(turns, j)
  {
    if |turns| > 0 && Covers(turns[j], x) then turns[j].speaker else Unknown
  }

  /** The inner `while` of `assign_speakers`: advance the cursor for a word starting at `x`. */
  method AdvanceCursor(turns: seq<Turn>, j0: nat, x: real) returns (j: nat)
    requires CursorOk(turns, j0)
    ensures j == Advance(turns, j0, x)
  {
    j := j0;
    while j + 1 < |turns| && turns[j].end < x
      invariant CursorOk(turns, j)
      invariant Advance(turns, j, x) == Advance(turns, j0, x)
      decreases |turns| - j
    {
      j := j + 1;
    }
  }

  /**
   * `assign_speakers(words, turns)`: every word keeps its text and times
   * and gets the label of the turn under the cursor, in place.
   */
  method AssignSpeakers(words: array<Word>, turns: seq<Turn>)
    modifies words
    ensures forall i :: 0 <= i < words.Length ==>
      words[i] == old(words[i]).(speaker := SpeakerAt(old(words[..]), turns, i))
  {
    ghost var w0 := words[..];
    var j := 0;
    for i := 0 to words.Length
      invariant j == CursorAfter(w0, turns, i)
      invariant forall m :: 0 <= m < i ==> words[m] == w0[m].(speaker := SpeakerAt(w0, turns, m))
      invariant forall m :: i <= m < words.Length ==> words[m] == w0[m]
    {
      var w := words[i];
      j := AdvanceCursor(turns, j, w.start);
      var speaker := Label(turns, j, w.start);
      words[i] := w.(speaker := speaker);
    }
  }

  /** The cursor over word `i` is always a valid turn index (or 0 with no turns) and never behind an earlier word's. */
  lemma {:induction false} CursorMonotone(words: seq<Word>, turns: seq<Turn>, a: nat, b: nat)
    requires a <= b <= |words|
    ensures CursorAfter(words, turns, a) <= CursorAfter(words, turns, b)
    ensures |turns| > 0 ==> CursorAfter(words, turns, b) < |turns|
    decreases b
  {
    if a < b {
      CursorMonotone(words, turns, a, b - 1);
    }
  }

  /**
   * Each word moves the cursor from where the previous word left it to the
   * first turn that does not end before the word starts, or to the last turn.
   */
  lemma CursorStep(words: seq<Word>, turns: seq<Turn>, i: nat)
    requires i < |words|
    ensures var p, c := CursorAfter(words, turns, i), CursorAfter(words, turns, i + 1);
      && p <= c
      && (forall m :: p <= m < c ==> turns[m].end < words[i].start)
      && (c + 1 >= |turns| || words[i].start <= turns[c].end)
  {
  }

  /** A word gets a turn's speaker exactly when the cursor turn contains its start; otherwise "UNK". */
  lemma LabelRule(words: seq<Word>, turns: seq<Turn>, i: nat)
    requires i < |words|
    ensures var c := CursorAfter(words, turns, i + 1);
      (|turns| > 0 && Covers(turns[c], words[i].start) ==> SpeakerAt(words, turns, i) == turns[c].speaker)
      && (!(|turns| > 0 && Covers(turns[c], words[i].start)) ==> SpeakerAt(words, turns, i) == Unknown)
  {
  }

  /** Without turns every word is labelled "UNK". */
  lemma NoTurnsAllUnknown(words: seq<Word>, i: nat)
    requires i < |words|
    ensures SpeakerAt(words, [], i) == Unknown
  {
  }

  predicate TurnsSorted(turns: seq<Turn>)
  {
    forall a, b :: 0 <= a < b < |turns| ==> turns[a].start <= turns[b].start
  }

  predicate WordsSorted(words: seq<Word>)
  {
    forall a, b :: 0 <= a < b < |words| ==> words[a].start <= words[b].start
  }

  /** Reference definition: some turn contains instant `x`. */
  predicate Covered(turns: seq<Turn>, x: real)
  {
    exists m :: 0 <= m < |turns| && Covers(turns[m], x)
  }

  /** Reference definition: the earliest turn containing `x`. */
  function FirstCovering(turns: seq<Turn>, x: real): (m: nat)
    requires Covered(turns, x)
    ensures m < |turns| && Covers(turns[m], x)
    ensures forall q :: 0 <= q < m ==> !Covers(turns[q], x)
  {
    if Covers(turns[0], x) then 0
    else
      assert Covered(turns[1..], x) by {
        var m :| 0 <= m < |turns| && Covers(turns[m], x);
        assert turns[1..][m - 1] == turns[m];
      }
      1 + FirstCovering(turns[1..], x)
  }

  /** With words in time order, every turn the cursor has passed ended before the current word. */
  lemma {:induction false} CursorPassed(words: seq<Word>, turns: seq<Turn>, n: nat)
    requires 1 <= n <= |words|
    requires WordsSorted(words)
    ensures forall m :: 0 <= m < CursorAfter(words, turns, n) ==> turns[m].end < words[n - 1].start
  {
    if n > 1 {
      CursorPassed(words, turns, n - 1);
      assert words[n - 2].start <= words[n - 1].start;
    }
  }

  /**
   * With turns sorted by start and words in time order, the monotone scan
   * agrees with the reference: a word gets the speaker of the earliest turn
   * that contains its start, and "UNK" exactly when no turn does.
   */
  lemma AlignmentDeterminism(words: seq<Word>, turns: seq<Turn>, i: nat)
    requires i < |words|
    requires TurnsSorted(turns) && WordsSorted(words)
    ensures SpeakerAt(words, turns, i) ==
      if Covered(turns, words[i].start) then turns[FirstCovering(turns, words[i].start)].speaker else Unknown
  {
    var x := words[i].start;
    var c := CursorAfter(words, turns, i + 1);
    CursorPassed(words, turns, i + 1);
    if Covered(turns, x) {
      var f := FirstCovering(turns, x);
      assert c <= f;
      SortedCursorCovers(turns, c, f, x);
    }
  }

  /** A cursor at or before a covering turn, and not ending before `x`, covers `x` too when turns are sorted by start. */
  lemma SortedCursorCovers(turns: seq<Turn>, c: nat, f: nat, x: real)
    requires TurnsSorted(turns)
    requires c <= f < |turns| && Covers(turns[f], x)
    requires c + 1 >= |turns| || x <= turns[c].end
    ensures Covers(turns[c], x)
  {
    if c < f {
      assert turns[c].start <= turns[f].start;
    }
  }

  /** With a single turn the cursor never moves: a word is labelled with it exactly when it contains the word's start. */
  lemma {:induction false} SingleTurn(words: seq<Word>, t: Turn, i: nat)
    requires i < |words|
    ensures SpeakerAt(words, [t], i) == if Covers(t, words[i].start) then t.speaker else Unknown
  {
    CursorMonotone(words, [t], 0, i + 1);
  }

  /**
   * The ingestion fallback turn spans from the first word's start to the
   * last word's end; with words in time order it labels every word.
   */
  lemma FallbackTurnLabelsAll(words: seq<Word>, name: string, i: nat)
    requires i < |words|
    requires WordsSorted(words)
    requires words[|words| - 1].start <= words[|words| - 1].end
    ensures SpeakerAt(words, [Turn(name, words[0].start, words[|words| - 1].end)], i) == name
  {
    SingleTurn(words, Turn(name, words[0].start, words[|words| - 1].end), i);
  }

  // ---------------------------------------------------------------------
  // Sentence building
  // ---------------------------------------------------------------------

  /** `text.endswith(('.', '?', '!', '…'))` */
  predicate Terminal(text: string)
  {
    |text| > 0 && text[|text| - 1] in {'.', '?', '!', '\U{2026}'}
  }

  /** `cur_len`: each buffered word's length plus one separator. */
  function BufLen(cur: seq<Word>): nat
  {
    if |cur| == 0 then 0 else BufLen(cur[..|cur| - 1]) + |cur[|cur| - 1].text| + 1
  }

  /** The flush test applied after a word is appended to the buffer. */
  predicate Flushes(cur: seq<Word>, maxChars: int)
    requires |cur| > 0
  {
    Terminal(cur[|cur| - 1].text) || BufLen(cur) >= maxChars
  }

  /** No prefix of the buffer has met the flush test. */
  predicate Open(cur: seq<Word>, maxChars: int)
  {
    forall q :: 1 <= q <= |cur| ==> !Flushes(cur[..q], maxChars)
  }

  /** A flushed group: it meets the flush test, and no shorter prefix did. */
  predicate Closed(g: seq<Word>, maxChars: int)
  {
    |g| > 0 && Flushes(g, maxChars) && Open(g[..|g| - 1], maxChars)
  }

  /** The state of the loop: the flushed groups so far and the current buffer. */
  datatype Split = Split(groups: seq<seq<Word>>, rest: seq<Word>)

  /** What the loop has produced after reading `words`. */
  function SplitWords(words: seq<Word>, maxChars: int): (r: Split)
    ensures forall k :: 0 <= k < |r.groups| ==> |r.groups[k]| > 0
  {
    if |words| == 0 then Split([], [])
    else
      var p := SplitWords(words[..|words| - 1], maxChars);
      var cur := p.rest + [words[|words| - 1]];
      if Flushes(cur, maxChars) then Split(p.groups + [cur], []) else Split(p.groups, cur)
  }

  function Texts(ws: seq<Word>): (r: seq<string>)
    ensures |r| == |ws| && forall i :: 0 <= i < |ws| ==> r[i] == ws[i].text
  {
    seq(|ws|, i requires 0 <= i < |ws| => ws[i].text)
  }

  /** The speaker loop of a flush: seconds per speaker, keys in first-seen order. */
  function Tally(ws: seq<Word>): SpeakerMap
  {
    if |ws| == 0 then []
    else
      var w := ws[|ws| - 1];
      Add(Tally(ws[..|ws| - 1]), w.speaker, w.end - w.start)
  }

  /** Reference definition: seconds of the words labelled `k`. */
  function SecondsOf(ws: seq<Word>, k: string): real
  {
    if |ws| == 0 then 0.0
    else SecondsOf(ws[..|ws| - 1], k) + (if ws[|ws| - 1].speaker == k then ws[|ws| - 1].end - ws[|ws| - 1].start else 0.0)
  }

  /** Reference definition: total seconds of the words. */
  function Duration(ws: seq<Word>): real
  {
    if |ws| == 0 then 0.0 else Duration(ws[..|ws| - 1]) + (ws[|ws| - 1].end - ws[|ws| - 1].start)
  }

  /** A sentence flushed inside the loop. */
  function GroupSentence(g: seq<Word>): Sentence
    requires |g| > 0
  {
    Sentence(Join(Texts(g)), g[0].start, g[|g| - 1].end, Tally(g))
  }

  /** The sentence for the trailing buffer: its speaker map has the single entry the code writes. */
  function TrailingSentence(cur: seq<Word>): Sentence
    requires |cur| > 0
  {
    Sentence(Join(Texts(cur)), cur[0].start, cur[|cur| - 1].end,
             [(cur[0].speaker, cur[|cur| - 1].end - cur[0].start)])
  }

  function GroupSentences(gs: seq<seq<Word>>): (r: seq<Sentence>)
    requires forall k :: 0 <= k < |gs| ==> |gs[k]| > 0
    ensures |r| == |gs| && forall k :: 0 <= k < |gs| ==> r[k] == GroupSentence(gs[k])
  {
    seq(|gs|, k requires 0 <= k < |gs| => GroupSentence(gs[k]))
  }

  /** `sentences_from_words(words, max_chars)` as a function of its input. */
  function Sentences(words: seq<Word>, maxChars: int): seq<Sentence>
  {
    var p := SplitWords(words, maxChars);
    GroupSentences(p.groups) + (if |p.rest| == 0 then [] else [TrailingSentence(p.rest)])
  }

  /** `sentences_from_words(words, max_chars)` */
  method SentencesFromWords(words: seq<Word>, maxChars: int) returns (chunks: seq<Sentence>)
    ensures chunks == Sentences(words, maxChars)
  {
    chunks := [];
    var cur: seq<Word> := [];
    var curLen := 0;
    for i := 0 to |words|
      invariant cur == SplitWords(words[..i], maxChars).rest
      invariant curLen == BufLen(cur)
      invariant chunks == GroupSentences(SplitWords(words[..i], maxChars).groups)
    {
      SplitStep(words, i, maxChars);
      ghost var gs := SplitWords(words[..i], maxChars).groups;
      var w := words[i];
      cur := cur + [w];
      assert cur[..|cur| - 1] + [w] == cur;
      curLen := curLen + |w.text| + 1;
      if Terminal(w.text) || curLen >= maxChars {
        var sentence := FlushSentence(cur);
        GroupSentencesAppend(gs, cur);
        chunks := chunks + [sentence];
        cur, curLen := [], 0;
      }
    }
    assert words[..|words|] == words;
    if |cur| > 0 {
      chunks := chunks + [TrailingSentence(cur)];
    }
  }

  /** The sentence the loop builds when it flushes the buffer. */
  method FlushSentence(cur: seq<Word>) returns (s: Sentence)
    requires |cur| > 0
    ensures s == GroupSentence(cur)
  {
    var speakers := TallySpeakers(cur);
    s := Sentence(Join(Texts(cur)), cur[0].start, cur[|cur| - 1].end, speakers);
  }

  /** One more word read by the loop. */
  lemma SplitStep(words: seq<Word>, i: nat, maxChars: int)
    requires i < |words|
    ensures var p := SplitWords(words[..i], maxChars);
      var cur := p.rest + [words[i]];
      SplitWords(words[..i + 1], maxChars)
        == if Flushes(cur, maxChars) then Split(p.groups + [cur], []) else Split(p.groups, cur)
  {
    assert words[..i + 1][..i] == words[..i];
  }

  lemma GroupSentencesAppend(gs: seq<seq<Word>>, g: seq<Word>)
    requires forall k :: 0 <= k < |gs| ==> |gs[k]| > 0
    requires |g| > 0
    ensures GroupSentences(gs + [g]) == GroupSentences(gs) + [GroupSentence(g)]
  {
  }

  /** The speaker loop of a flush. */
  method TallySpeakers(cur: seq<Word>) returns (speakers: SpeakerMap)
    ensures speakers == Tally(cur)
  {
    speakers := [];
    for q := 0 to |cur|
      invariant speakers == Tally(cur[..q])
    {
      assert cur[..q + 1][..q] == cur[..q];
      speakers := Add(speakers, cur[q].speaker, cur[q].end - cur[q].start);
    }
    assert cur[..|cur|] == cur;
  }

  /** All words in order, regrouped. */
  function Flatten(gs: seq<seq<Word>>): seq<Word>
  {
    if |gs| == 0 then [] else Flatten(gs[..|gs| - 1]) + gs[|gs| - 1]
  }

  /** The word runs the sentences are made of, trailing buffer included. */
  function Parts(words: seq<Word>, maxChars: int): seq<seq<Word>>
  {
    var p := SplitWords(words, maxChars);
    p.groups + (if |p.rest| == 0 then [] else [p.rest])
  }

  /** Sentence building loses and reorders no words: the groups and the buffer concatenate to the input. */
  lemma {:induction false} SplitKeepsWords(words: seq<Word>, maxChars: int)
    ensures var p := SplitWords(words, maxChars); Flatten(p.groups) + p.rest == words
  {
    if |words| > 0 {
      var init := words[..|words| - 1];
      var w := words[|words| - 1];
      SplitKeepsWords(init, maxChars);
      var p := SplitWords(init, maxChars);
      var cur := p.rest + [w];
      if Flushes(cur, maxChars) {
        FlattenAppend(p.groups, cur);
      }
      assert init + [w] == words;
    }
  }

  /**
   * Each sentence is cut exactly where the flush test first held: every
   * flushed group meets it and none of its shorter prefixes did, and the
   * trailing buffer never met it.
   */
  lemma {:induction false} SplitBoundaries(words: seq<Word>, maxChars: int)
    ensures var p := SplitWords(words, maxChars);
      && (forall k :: 0 <= k < |p.groups| ==> Closed(p.groups[k], maxChars))
      && Open(p.rest, maxChars)
  {
    if |words| > 0 {
      var init := words[..|words| - 1];
      var w := words[|words| - 1];
      SplitBoundaries(init, maxChars);
      var p := SplitWords(init, maxChars);
      var cur := p.rest + [w];
      assert cur[..|cur| - 1] == p.rest;
      if Flushes(cur, maxChars) {
        var gs := p.groups + [cur];
        assert Closed(cur, maxChars);
        assert forall k :: 0 <= k < |gs| ==> Closed(gs[k], maxChars) by {
          forall k | 0 <= k < |gs| ensures Closed(gs[k], maxChars) {
            if k < |p.groups| { assert gs[k] == p.groups[k]; }
          }
        }
      } else {
        OpenExtend(p.rest, w, maxChars);
      }
    }
  }

  /** Appending a word the flush test rejects keeps the buffer open. */
  lemma OpenExtend(rest: seq<Word>, w: Word, maxChars: int)
    requires Open(rest, maxChars)
    requires !Flushes(rest + [w], maxChars)
    ensures Open(rest + [w], maxChars)
  {
    var cur := rest + [w];
    forall q | 1 <= q <= |cur| ensures !Flushes(cur[..q], maxChars) {
      if q < |cur| { assert cur[..q] == rest[..q]; }
      else { assert cur[..q] == cur; }
    }
  }

  lemma {:induction false} FlattenAppend(a: seq<seq<Word>>, b: seq<Word>)
    ensures Flatten(a + [b]) == Flatten(a) + b
  {
    assert (a + [b])[..|a|] == a;
  }

  lemma {:induction false} TextsFlatten(gs: seq<seq<Word>>)
    ensures Texts(Flatten(gs)) == Concat(seq(|gs|, k requires 0 <= k < |gs| => Texts(gs[k])))
  {
    var ts := seq(|gs|, k requires 0 <= k < |gs| => Texts(gs[k]));
    if |gs| > 0 {
      var init := gs[..|gs| - 1];
      TextsFlatten(init);
      assert ts[..|ts| - 1] == seq(|init|, k requires 0 <= k < |init| => Texts(init[k]));
      assert Texts(Flatten(init) + gs[|gs| - 1]) == Texts(Flatten(init)) + Texts(gs[|gs| - 1]);
    }
  }

  /** The texts of the sentences, in order (`Texts` is the same over words; a window joins these). */
  function SentenceTexts(ss: seq<Sentence>): (r: seq<string>)
    ensures |r| == |ss| && forall i :: 0 <= i < |ss| ==> r[i] == ss[i].text
  {
    seq(|ss|, i requires 0 <= i < |ss| => ss[i].text)
  }

  /**
   * The parts are non-empty and concatenate to the input, and there is one
   * sentence per part; empty input gives no sentences.
   */
  lemma PartsCoverWords(words: seq<Word>, maxChars: int)
    ensures var ps := Parts(words, maxChars);
      && |Sentences(words, maxChars)| == |ps|
      && Flatten(ps) == words
      && (|words| == 0 <==> |ps| == 0)
      && forall k :: 0 <= k < |ps| ==> |ps[k]| > 0
  {
    var p := SplitWords(words, maxChars);
    SplitKeepsWords(words, maxChars);
    if |p.rest| > 0 {
      FlattenAppend(p.groups, p.rest);
    } else {
      assert p.groups + [] == p.groups;
    }
    if |words| > 0 && |p.groups| == 0 {
      assert Flatten(p.groups) == [];
    }
  }

  /** Sentence `k` is built from part `k`: the flushed groups first, the trailing buffer last. */
  lemma SentencesFromParts(words: seq<Word>, maxChars: int)
    ensures var ps, ss, n := Parts(words, maxChars), Sentences(words, maxChars), |SplitWords(words, maxChars).groups|;
      && |ss| == |ps|
      && (forall k :: 0 <= k < |ps| ==> |ps[k]| > 0)
      && (forall k :: 0 <= k < n ==> ss[k] == GroupSentence(ps[k]))
      && (n < |ps| ==> n == |ps| - 1 && ss[n] == TrailingSentence(ps[n]))
  {
    var p := SplitWords(words, maxChars);
    var ps, ss := Parts(words, maxChars), Sentences(words, maxChars);
    var gss := GroupSentences(p.groups);
    forall k | 0 <= k < |p.groups|
      ensures ps[k] == p.groups[k] && ss[k] == GroupSentence(p.groups[k])
    {
      assert ss[k] == gss[k];
    }
  }

  /**
   * Each sentence's text is the space-join of its part's words, its start
   * the first word's start and its end the last word's end; in-loop
   * sentences carry the per-speaker tally and the trailing one its single
   * entry.
   */
  lemma SentencesShape(words: seq<Word>, maxChars: int)
    ensures var ps, ss, n := Parts(words, maxChars), Sentences(words, maxChars), |SplitWords(words, maxChars).groups|;
      && |ss| == |ps|
      && forall k :: 0 <= k < |ps| ==>
           && |ps[k]| > 0
           && ss[k].text == Join(Texts(ps[k]))
           && ss[k].start == ps[k][0].start
           && ss[k].end == ps[k][|ps[k]| - 1].end
           && (k < n ==> ss[k].speakers == Tally(ps[k]))
           && (k == n ==> ss[k].speakers == [(ps[k][0].speaker, ps[k][|ps[k]| - 1].end - ps[k][0].start)])
  {
    var ps, ss, n := Parts(words, maxChars), Sentences(words, maxChars), |SplitWords(words, maxChars).groups|;
    SentencesFromParts(words, maxChars);
    forall k | 0 <= k < |ps|
      ensures && |ps[k]| > 0
              && ss[k].text == Join(Texts(ps[k]))
              && ss[k].start == ps[k][0].start
              && ss[k].end == ps[k][|ps[k]| - 1].end
              && (k < n ==> ss[k].speakers == Tally(ps[k]))
              && (k == n ==> ss[k].speakers == [(ps[k][0].speaker, ps[k][|ps[k]| - 1].end - ps[k][0].start)])
    {
      if k < n {
        assert ss[k] == GroupSentence(ps[k]);
      } else {
        assert ss[k] == TrailingSentence(ps[k]);
      }
    }
  }

  /** No word text is lost or reordered: joining the sentence texts gives the join of all word texts. */
  lemma SentencesKeepText(words: seq<Word>, maxChars: int)
    ensures Join(SentenceTexts(Sentences(words, maxChars))) == Join(Texts(words))
  {
    var ps := Parts(words, maxChars);
    var ss := Sentences(words, maxChars);
    var ts := seq(|ps|, k requires 0 <= k < |ps| => Texts(ps[k]));
    assert JoinEach(ts) == SentenceTexts(ss) && forall k :: 0 <= k < |ts| ==> |ts[k]| > 0 by {
      SentencesShape(words, maxChars);
    }
    JoinOfJoins(ts);
    assert Concat(ts) == Texts(words) by {
      PartsCoverWords(words, maxChars);
      TextsFlatten(ps);
    }
  }

  /** A flushed sentence's map gives each speaker the seconds of that speaker's words. */
  lemma {:induction false} TallyGet(ws: seq<Word>, k: string)
    ensures Get(Tally(ws), k) == SecondsOf(ws, k)
  {
    if |ws| > 0 {
      var w := ws[|ws| - 1];
      TallyGet(ws[..|ws| - 1], k);
      AddGet(Tally(ws[..|ws| - 1]), w.speaker, w.end - w.start, k);
    }
  }

  /** A flushed sentence's map is a dict: each speaker appears once. */
  lemma {:induction false} TallyDistinct(ws: seq<Word>)
    ensures DistinctKeys(Tally(ws))
  {
    if |ws| > 0 {
      var w := ws[|ws| - 1];
      TallyDistinct(ws[..|ws| - 1]);
      AddKeys(Tally(ws[..|ws| - 1]), w.speaker, w.end - w.start);
    }
  }

  /** A flushed sentence's map accounts for every member word's duration. */
  lemma {:induction false} TallyTotal(ws: seq<Word>)
    ensures Total(Tally(ws)) == Duration(ws)
  {
    if |ws| > 0 {
      var w := ws[|ws| - 1];
      TallyTotal(ws[..|ws| - 1]);
      AddTotal(Tally(ws[..|ws| - 1]), w.speaker, w.end - w.start);
    }
  }

  /**
   * The trailing buffer's map differs from the tally the flushed
   * sentences get: two words of two speakers yield one entry that spans
   * both words.
   */
  lemma TrailingMapDiffers()
    ensures var ws := [Word("so", 0.0, 1.0, "A"), Word("yes", 1.0, 2.0, "B")];
      && Sentences(ws, 280) == [TrailingSentence(ws)]
      && TrailingSentence(ws).speakers == [("A", 2.0)]
      && Tally(ws) == [("A", 1.0), ("B", 1.0)]
  {
    var ws := [Word("so", 0.0, 1.0, "A"), Word("yes", 1.0, 2.0, "B")];
    assert ws[..1] == [ws[0]];
    assert [ws[0]][..0] == [];
    assert !Terminal("so") && !Terminal("yes");
    assert BufLen([ws[0]]) == 3;
    assert BufLen(ws) == 7;
    assert SplitWords([ws[0]], 280) == Split([], [ws[0]]);
    assert SplitWords(ws, 280) == Split([], ws);
  }
}
