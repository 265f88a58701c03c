/**
 * Time-aware windows (pipeline/chunk.py): consecutive sentences are packed
 * into windows of about `target_tokens` estimated tokens, and the next
 * window starts a fraction `1 - overlap` of the current window's sentences
 * further on, so neighbouring windows share about `overlap` of them.
 */
module Chunk {
  import opened Text
  import opened SpeakerTime
  import opened Align
  import opened Seqs

  /** One retrieval window. */
  datatype Window = Window(text: string, start: real, end: real, speakers: SpeakerMap, tokens: int)

  /** Python's `int(x)`: truncation toward zero. */
  function Trunc(x: real): (r: int)
    ensures x >= 0.0 ==> r as real <= x < r as real + 1.0
    ensures x < 0.0 ==> r as real - 1.0 < x <= r as real
  {
    if x >= 0.0 then x.Floor else -((-x).Floor)
  }

  /**
   * `est_tokens(t) = max(1, int(len(t.split()) * 1.3))`, with the factor
   * 1.3 taken as the exact ratio 13/10.
   */
  function EstTokens(t: string): (r: int)
    ensures r >= 1
  {
    var n := WordCount(t);
    if (13 * n) / 10 > 1 then (13 * n) / 10 else 1
  }

  /** The estimate is 1.3 tokens per word, rounded down, and at least one per word. */
  lemma EstTokensBounds(t: string)
    ensures EstTokens(t) >= WordCount(t)
    ensures WordCount(t) > 0 ==> 10 * EstTokens(t) <= 13 * WordCount(t) < 10 * EstTokens(t) + 10
    ensures WordCount(t) == 0 ==> EstTokens(t) == 1
  {
  }

  /** Estimated tokens of the sentences `i..m-1`: what `cur_tok` sums. */
  function TokensBetween(ss: seq<Sentence>, i: nat, m: nat): int
    requires i <= m <= |ss|
    decreases m - i
  {
    if m == i then 0 else TokensBetween(ss, i, m - 1) + EstTokens(ss[m - 1].text)
  }

  /** Every sentence counts at least one token. */
  lemma {:induction false} TokensAtLeastCount(ss: seq<Sentence>, i: nat, m: nat)
    requires i <= m <= |ss|
    ensures TokensBetween(ss, i, m) >= m - i
    decreases m - i
  {
    if m > i {
      TokensAtLeastCount(ss, i, m - 1);
    }
  }

  /** Where the inner loop stops, continuing from index `j` with `tok` tokens gathered. */
  function Reach(ss: seq<Sentence>, j: nat, tok: int, target: int): (r: nat)
    requires j <= |ss|
    ensures j <= r <= |ss|
    ensures tok >= target ==> r == j
    ensures j < |ss| && tok < target ==> r > j
    decreases |ss| - j
  {
    if j < |ss| && tok < target then Reach(ss, j + 1, tok + EstTokens(ss[j].text), target) else j
  }

  /** The end (exclusive) of the window that starts at sentence `i`. */
  function WindowEnd(ss: seq<Sentence>, i: nat, target: int): nat
    requires i <= |ss|
  {
    Reach(ss, i, 0, target)
  }

  lemma {:induction false} ReachLaw(ss: seq<Sentence>, i: nat, j: nat, target: int)
    requires i <= j <= |ss|
    requires forall m :: i <= m < j ==> TokensBetween(ss, i, m) < target
    ensures var e := Reach(ss, j, TokensBetween(ss, i, j), target);
      && (e == |ss| || TokensBetween(ss, i, e) >= target)
      && forall m :: i <= m < e ==> TokensBetween(ss, i, m) < target
    decreases |ss| - j
  {
    var tok := TokensBetween(ss, i, j);
    if j < |ss| && tok < target {
      assert TokensBetween(ss, i, j + 1) == tok + EstTokens(ss[j].text);
      ReachLaw(ss, i, j + 1, target);
    }
  }

  /**
   * The inner loop's stopping rule: a window starting at `i` is non-empty,
   * reaches the target or the last sentence, and every shorter run was
   * still below the target.
   */
  lemma WindowEndLaw(ss: seq<Sentence>, i: nat, target: int)
    requires i < |ss| && target > 0
    ensures var e := WindowEnd(ss, i, target);
      && i < e <= |ss|
      && (e == |ss| || TokensBetween(ss, i, e) >= target)
      && forall m :: i <= m < e ==> TokensBetween(ss, i, m) < target
  {
    ReachLaw(ss, i, i, target);
  }

  /** `max(1, int(len(cur) * (1 - overlap)))` */
  function Step(len: int, overlap: real): (r: int)
    ensures r >= 1
  {
    var t := Trunc(len as real * (1.0 - overlap));
    if t > 1 then t else 1
  }

  /** A non-negative overlap never steps past the window; overlap 0 steps exactly over it. */
  lemma StepBounds(len: int, overlap: real)
    requires len >= 1
    ensures overlap >= 0.0 ==> Step(len, overlap) <= len
    ensures overlap == 0.0 ==> Step(len, overlap) == len
  {
  }

  /** Where the next window starts after the window starting at `i`. */
  function NextStart(ss: seq<Sentence>, i: nat, target: int, overlap: real): nat
    requires i <= |ss|
  {
    i + Step(WindowEnd(ss, i, target) - i, overlap)
  }

  /** The start index of each window produced from start index `i` on. */
  function Starts(ss: seq<Sentence>, i: nat, target: int, overlap: real): seq<nat>
    decreases |ss| - i
  {
    if i >= |ss| then [] else [i] + Starts(ss, NextStart(ss, i, target, overlap), target, overlap)
  }

  /**
   * The starts begin at `i`, stay inside the input, follow the step rule,
   * and the step after the last one leaves the input; there are at most
   * as many as sentences from `i` on.
   */
  lemma {:induction false} StartsLaw(ss: seq<Sentence>, i: nat, target: int, overlap: real)
    ensures var st := Starts(ss, i, target, overlap);
      && (|st| == 0 <==> i >= |ss|)
      && (i <= |ss| ==> |st| <= |ss| - i)
      && (|st| > 0 ==> st[0] == i)
      && (forall k :: 0 <= k < |st| ==> i <= st[k] < |ss|)
      && (forall k :: 0 <= k < |st| - 1 ==> st[k + 1] == NextStart(ss, st[k], target, overlap))
      && (|st| > 0 ==> NextStart(ss, st[|st| - 1], target, overlap) >= |ss|)
    decreases |ss| - i
  {
    if i < |ss| {
      var n := NextStart(ss, i, target, overlap);
      var st, st' := Starts(ss, i, target, overlap), Starts(ss, n, target, overlap);
      StartsLaw(ss, n, target, overlap);
      assert st == [i] + st';
      assert forall k :: 0 < k < |st| ==> st[k] == st'[k - 1];
    }
  }

  /** The speaker maps of a run of sentences. */
  function SpeakerMaps(run: seq<Sentence>): (r: seq<SpeakerMap>)
    ensures |r| == |run| && forall k :: 0 <= k < |run| ==> r[k] == run[k].speakers
  {
    seq(|run|, k requires 0 <= k < |run| => run[k].speakers)
  }

  /** The window built from a non-empty run of sentences and its token count. */
  function MakeWindow(run: seq<Sentence>, tokens: int): Window
    requires |run| > 0
  {
    Window(Join(SentenceTexts(run)), run[0].start, run[|run| - 1].end,
           SumMaps(SpeakerMaps(run)), tokens)
  }

  /** The window that starts at sentence `s`. */
  function WindowAt(ss: seq<Sentence>, s: nat, target: int): Window
    requires s < |ss| && target > 0
  {
    MakeWindow(Run(ss, s, target), TokensBetween(ss, s, WindowEnd(ss, s, target)))
  }

  /** The windows produced from start index `i` on. */
  function WindowsFrom(ss: seq<Sentence>, i: nat, target: int, overlap: real): seq<Window>
    requires i < |ss| ==> target > 0
    decreases |ss| - i
  {
    if i >= |ss| then [] else [WindowAt(ss, i, target)] + WindowsFrom(ss, NextStart(ss, i, target, overlap), target, overlap)
  }

  /** `time_aware_windows(sentences, target_tokens, overlap)` as a function of its inputs. */
  function Windows(ss: seq<Sentence>, target: int, overlap: real): seq<Window>
    requires |ss| > 0 ==> target > 0
  {
    WindowsFrom(ss, 0, target, overlap)
  }

  /** Window `k` is the window at the `k`-th start. */
  lemma {:induction false} WindowsAtStarts(ss: seq<Sentence>, i: nat, target: int, overlap: real)
    requires i < |ss| ==> target > 0
    ensures var ws, st := WindowsFrom(ss, i, target, overlap), Starts(ss, i, target, overlap);
      && |ws| == |st|
      && forall k :: 0 <= k < |st| ==> st[k] < |ss| && ws[k] == WindowAt(ss, st[k], target)
    decreases |ss| - i
  {
    StartsLaw(ss, i, target, overlap);
    if i < |ss| {
      var n := NextStart(ss, i, target, overlap);
      WindowsAtStarts(ss, n, target, overlap);
      var st, st' := Starts(ss, i, target, overlap), Starts(ss, n, target, overlap);
      var ws, ws' := WindowsFrom(ss, i, target, overlap), WindowsFrom(ss, n, target, overlap);
      assert st == [i] + st' && ws == [WindowAt(ss, i, target)] + ws';
      forall k | 0 < k < |st| ensures st[k] < |ss| && ws[k] == WindowAt(ss, st[k], target) {
        assert st[k] == st'[k - 1] && ws[k] == ws'[k - 1];
      }
    }
  }

  /** The outer loop's invariant: the windows emitted so far followed by those from `i` on are all the windows. */
  predicate Emitted(ss: seq<Sentence>, target: int, overlap: real, done: seq<Window>, i: nat)
    requires |ss| > 0 ==> target > 0
  {
    done + WindowsFrom(ss, i, target, overlap) == Windows(ss, target, overlap)
  }

  /** `time_aware_windows(sentences, target_tokens, overlap)` */
  method TimeAwareWindows(ss: seq<Sentence>, target: int, overlap: real) returns (windows: seq<Window>)
    requires |ss| > 0 ==> target > 0
    ensures windows == Windows(ss, target, overlap)
  {
    windows := [];
    var i: nat := 0;
    while i < |ss|
      invariant Emitted(ss, target, overlap, windows, i)
      decreases |ss| - i
    {
      var w, step := NextWindow(ss, i, target, overlap);
      var next: nat := i + step;
      EmitWindow(ss, i, target, overlap, windows, w, next);
      windows, i := windows + [w], next;
    }
  }

  /** One pass of the outer loop: the window at `i` and the step to the next start. */
  method NextWindow(ss: seq<Sentence>, i: nat, target: int, overlap: real) returns (w: Window, step: int)
    requires i < |ss| && target > 0
    ensures w == WindowAt(ss, i, target)
    ensures i + step == NextStart(ss, i, target, overlap)
  {
    var cur, curTok, j := FillWindow(ss, i, target);
    var startT := ss[i].start;
    w := BuildWindow(startT, cur, curTok);
    step := Step(|cur|, overlap);
  }

  /** The window dict built from the gathered sentences. */
  method BuildWindow(startT: real, cur: seq<Sentence>, curTok: int) returns (w: Window)
    requires |cur| > 0 && startT == cur[0].start
    ensures w == MakeWindow(cur, curTok)
  {
    var endT := cur[|cur| - 1].end;
    var text := Join(SentenceTexts(cur));
    var speakers := MergeSpeakers(cur);
    w := Window(text, startT, endT, speakers, curTok);
  }

  /** Emitting the window at `i` and moving to the next start keeps the outer loop's invariant. */
  lemma EmitWindow(ss: seq<Sentence>, i: nat, target: int, overlap: real, done: seq<Window>, w: Window, n: nat)
    requires i < |ss| && target > 0
    requires Emitted(ss, target, overlap, done, i)
    requires w == WindowAt(ss, i, target) && n == NextStart(ss, i, target, overlap)
    ensures Emitted(ss, target, overlap, done + [w], n)
  {
    // One pass of the outer loop: the window at `i`, then those from the next start.
    assert WindowsFrom(ss, i, target, overlap) == [w] + WindowsFrom(ss, n, target, overlap);
    EmitStep(done, w, WindowsFrom(ss, n, target, overlap), WindowsFrom(ss, i, target, overlap),
             Windows(ss, target, overlap));
  }

  /** The inner loop: gather sentences from `i` until the target is met or the input ends. */
  method FillWindow(ss: seq<Sentence>, i: nat, target: int) returns (cur: seq<Sentence>, curTok: int, j: nat)
    requires i < |ss| && target > 0
    ensures j == WindowEnd(ss, i, target) && i < j <= |ss|
    ensures cur == ss[i..j] && curTok == TokensBetween(ss, i, j)
  {
    WindowEndLaw(ss, i, target);
    cur, curTok := [], 0;
    j := i;
    while j < |ss| && curTok < target
      invariant i <= j <= |ss|
      invariant cur == ss[i..j] && curTok == TokensBetween(ss, i, j)
      invariant Reach(ss, j, curTok, target) == WindowEnd(ss, i, target)
      decreases |ss| - j
    {
      SliceSnoc(ss, i, j);
      ghost var next := curTok + EstTokens(ss[j].text);
      assert TokensBetween(ss, i, j + 1) == next;
      assert Reach(ss, j, curTok, target) == Reach(ss, j + 1, next, target);
      cur := cur + [ss[j]];
      curTok := curTok + EstTokens(ss[j].text);
      j := j + 1;
    }
  }

  /** The window's speaker loops: every sentence's map merged into `{}` in order. */
  method MergeSpeakers(cur: seq<Sentence>) returns (speakers: SpeakerMap)
    ensures speakers == SumMaps(SpeakerMaps(cur))
  {
    speakers := [];
    var ms := SpeakerMaps(cur);
    for a := 0 to |cur|
      invariant speakers == SumMaps(ms[..a])
    {
      assert ms[..a + 1][..a] == ms[..a];
      var m := cur[a].speakers;
      for b := 0 to |m|
        invariant speakers == Merge(SumMaps(ms[..a]), m[..b])
      {
        assert m[..b + 1][..b] == m[..b];
        speakers := Add(speakers, m[b].0, m[b].1);
      }
      assert m[..|m|] == m;
    }
    assert ms[..|cur|] == ms;
  }

  // ---------------------------------------------------------------------
  // Properties of the windows
  // ---------------------------------------------------------------------

  /** No sentences, no windows; some sentences, at least one window and never more windows than sentences. */
  lemma WindowCount(ss: seq<Sentence>, target: int, overlap: real)
    requires |ss| > 0 ==> target > 0
    ensures var ws := Windows(ss, target, overlap);
      && (|ws| == 0 <==> |ss| == 0)
      && |ws| <= |ss|
  {
    WindowsAtStarts(ss, 0, target, overlap);
    StartsLaw(ss, 0, target, overlap);
  }

  /** The sentences of the window that starts at `s`. */
  function Run(ss: seq<Sentence>, s: nat, target: int): seq<Sentence>
    requires s <= |ss|
  {
    ss[s..WindowEnd(ss, s, target)]
  }

  /**
   * The window starting at sentence `s` (window `k` starts at the `k`-th
   * start, by `WindowsAtStarts`) is a non-empty run of the sentences from
   * `s` on: it starts at the first one's start and ends at the last one's
   * end, its text joins their texts, its token count is their estimate, at
   * least one per sentence, and it met the target unless it ran to the
   * last sentence, while every shorter run from `s` was below the target.
   */
  lemma WindowContent(ss: seq<Sentence>, s: nat, target: int)
    requires s < |ss| && target > 0
    ensures var run, w := Run(ss, s, target), WindowAt(ss, s, target);
      && |run| > 0
      && w.start == run[0].start == ss[s].start
      && w.end == run[|run| - 1].end
      && w.text == Join(SentenceTexts(run))
      && w.tokens == TokensBetween(ss, s, s + |run|) >= |run|
      && (s + |run| == |ss| || w.tokens >= target)
      && forall m :: s <= m < s + |run| ==> TokensBetween(ss, s, m) < target
  {
    var e := WindowEnd(ss, s, target);
    WindowEndLaw(ss, s, target);
    TokensAtLeastCount(ss, s, e);
    var run := Run(ss, s, target);
    assert |run| == e - s && s + |run| == e;
  }

  /**
   * A window's map gives each speaker the sum of that speaker's seconds
   * over the window's sentences, and is a dict, provided every sentence's
   * map is one.
   */
  lemma WindowSpeakers(ss: seq<Sentence>, s: nat, target: int, x: string)
    requires s < |ss| && target > 0
    requires forall i :: 0 <= i < |ss| ==> DistinctKeys(ss[i].speakers)
    ensures var w := WindowAt(ss, s, target);
      && Get(w.speakers, x) == SumOfGets(SpeakerMaps(Run(ss, s, target)), x)
      && DistinctKeys(w.speakers)
  {
    WindowEndLaw(ss, s, target);
    SumMapsGet(SpeakerMaps(Run(ss, s, target)), x);
  }

  /** Window starts strictly increase. */
  lemma StartsIncrease(ss: seq<Sentence>, target: int, overlap: real, k: nat, l: nat)
    requires k < l < |Starts(ss, 0, target, overlap)|
    ensures Starts(ss, 0, target, overlap)[k] < Starts(ss, 0, target, overlap)[l]
    decreases l - k
  {
    StartsLaw(ss, 0, target, overlap);
    if k + 1 < l {
      StartsIncrease(ss, target, overlap, k + 1, l);
    }
  }

  /** The position, among the windows produced from `i`, of the first window holding sentence `x`. */
  function CoveringWindow(ss: seq<Sentence>, i: nat, target: int, overlap: real, x: nat): nat
    requires target > 0 && overlap >= 0.0
    requires i <= x < |ss|
    decreases |ss| - i
  {
    if x < WindowEnd(ss, i, target) then 0
    else
      WindowEndLaw(ss, i, target);
      StepBounds(WindowEnd(ss, i, target) - i, overlap);
      1 + CoveringWindow(ss, NextStart(ss, i, target, overlap), target, overlap, x)
  }

  /**
   * With a non-negative overlap no sentence is skipped: every sentence at
   * or after `i` lies inside some window produced from `i`.
   */
  lemma {:induction false} CoverFrom(ss: seq<Sentence>, i: nat, target: int, overlap: real, x: nat)
    requires target > 0 && overlap >= 0.0
    requires i <= x < |ss|
    ensures var st, k := Starts(ss, i, target, overlap), CoveringWindow(ss, i, target, overlap, x);
      k < |st| && st[k] <= x < WindowEnd(ss, st[k], target)
    decreases |ss| - i
  {
    var st := Starts(ss, i, target, overlap);
    WindowEndLaw(ss, i, target);
    if x >= WindowEnd(ss, i, target) {
      StepBounds(WindowEnd(ss, i, target) - i, overlap);
      var n := NextStart(ss, i, target, overlap);
      CoverFrom(ss, n, target, overlap, x);
      var k := CoveringWindow(ss, n, target, overlap, x);
      assert st[k + 1] == Starts(ss, n, target, overlap)[k];
    }
  }

  /** With a non-negative overlap, every sentence appears in some window. */
  lemma WindowsCover(ss: seq<Sentence>, target: int, overlap: real, x: nat)
    requires target > 0 && overlap >= 0.0
    requires x < |ss|
    ensures var st := Starts(ss, 0, target, overlap);
      exists k :: 0 <= k < |st| && st[k] <= x < WindowEnd(ss, st[k], target)
  {
    CoverFrom(ss, 0, target, overlap, x);
    var k := CoveringWindow(ss, 0, target, overlap, x);
    assert Starts(ss, 0, target, overlap)[k] <= x;
  }

  /**
   * With overlap 0 the windows tile the input: each starts where the
   * previous one ended and the last one ends at the last sentence.
   */
  lemma NoOverlapTiles(ss: seq<Sentence>, target: int)
    requires |ss| > 0 ==> target > 0
    ensures var st := Starts(ss, 0, target, 0.0);
      && (forall k :: 0 <= k < |st| ==> st[k] < |ss|)
      && (forall k :: 0 <= k < |st| - 1 ==> st[k + 1] == WindowEnd(ss, st[k], target))
      && (|st| > 0 ==> WindowEnd(ss, st[|st| - 1], target) == |ss|)
  {
    var st := Starts(ss, 0, target, 0.0);
    StartsLaw(ss, 0, target, 0.0);
    forall k | 0 <= k < |st| ensures NextStart(ss, st[k], target, 0.0) == WindowEnd(ss, st[k], target) {
      WindowEndLaw(ss, st[k], target);
      StepBounds(WindowEnd(ss, st[k], target) - st[k], 0.0);
    }
  }
}
