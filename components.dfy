/**
 * Timestamp labels of the app (app/components.py): `ts_to_mmss` renders a
 * time in seconds as minutes and seconds, each zero-padded to two digits,
 * and `audio_fragment_tag` prefixes it with "Start at ".
 */
module Components {
  import opened Text

  /** `f"{n:02d}"`: at least two characters, zero-padded; the sign counts toward the width. */
  function Pad2(n: int): (r: string)
    ensures |r| >= 2
    ensures 0 <= n < 100 ==> |r| == 2
    ensures n >= 0 ==> forall i :: 0 <= i < |r| ==> IsDigit(r[i])
    ensures n < 0 ==> r[0] == '-'
    ensures n >= 10 ==> r[0] != '0'
  {
    if 0 <= n < 10 then ['0', DigitChar(n)]
    else
      assert n >= 0 ==> NatToString(n) == NatToString(n / 10) + [DigitChar(n % 10)];
      IntToString(n)
  }

  /** `m = int(t // 60)`: Python's floor division. */
  function Minutes(t: real): int
  {
    (t / 60.0).Floor
  }

  /** `s = int(t % 60)`: the floor of Python's modulo, which takes the sign of 60. */
  function Seconds(t: real): int
  {
    (t - 60.0 * Minutes(t) as real).Floor
  }

  /** `ts_to_mmss(t)` */
  function TsToMmss(t: real): string
  {
    Pad2(Minutes(t)) + ":" + Pad2(Seconds(t))
  }

  /** `audio_fragment_tag(audio_path, start)`: the path plays no part. */
  function AudioFragmentTag(audioPath: string, start: real): string
  {
    "Start at " + TsToMmss(start)
  }

  /** The seconds field is always in `[0, 60)`, and the two fields recombine to the whole seconds of `t`. */
  lemma Fields(t: real)
    ensures 0 <= Seconds(t) < 60
    ensures 60 * Minutes(t) + Seconds(t) == t.Floor
    ensures t >= 0.0 ==> Minutes(t) >= 0
  {
    var m := Minutes(t);
    assert m as real <= t / 60.0 < m as real + 1.0;
    var rest := t - 60.0 * m as real;
    assert 0.0 <= rest < 60.0;
    assert (60 * m) as real + Seconds(t) as real <= t < (60 * m) as real + Seconds(t) as real + 1.0;
  }

  /** Reading a timestamp back: the minutes before the first `:` times 60, plus the seconds after it. */
  function ParseMmss(x: string): int
  {
    var c := ColonAt(x);
    if c < 0 then 0 else 60 * DecimalValue(x[..c]) + DecimalValue(x[c + 1..])
  }

  /** Position of the first `:`, or -1. */
  function ColonAt(x: string): (r: int)
    ensures -1 <= r < |x|
    ensures r >= 0 ==> x[r] == ':' && forall i :: 0 <= i < r ==> x[i] != ':'
    ensures r < 0 ==> forall i :: 0 <= i < |x| ==> x[i] != ':'
  {
    if |x| == 0 then -1
    else if x[0] == ':' then 0
    else var r := ColonAt(x[1..]); if r < 0 then -1 else r + 1
  }

  /** For a non-negative number the padding adds only a leading zero, which does not change its value. */
  lemma Pad2Value(n: nat)
    ensures DecimalValue(Pad2(n)) == n
  {
    if n < 10 {
      var p := Pad2(n);
      assert p[1] == DigitChar(n) && DigitValue(DigitChar(n)) == n;
      assert p[..1] == "0" && DecimalValue("0") == 0 by {
        assert "0"[..0] == [];
      }
    } else {
      assert Pad2(n) == NatToString(n);
      NatToStringRoundTrip(n);
    }
  }

  /** For `t >= 0` the label reads back as the whole seconds of `t`. */
  lemma MmssRoundTrip(t: real)
    requires t >= 0.0
    ensures ParseMmss(TsToMmss(t)) == t.Floor
  {
    Fields(t);
    var a, b := Pad2(Minutes(t)), Pad2(Seconds(t));
    var x := TsToMmss(t);
    assert x[|a|] == ':';
    assert forall i :: 0 <= i < |a| ==> x[i] == a[i];
    assert ColonAt(x) == |a|;
    assert x[..|a|] == a;
    assert x[|a| + 1..] == b;
    Pad2Value(Minutes(t));
    Pad2Value(Seconds(t));
  }

  /** Below 100 minutes the label is exactly `MM:SS`, five characters with the colon third. */
  lemma MmssLength(t: real)
    requires 0.0 <= t < 6000.0
    ensures |TsToMmss(t)| == 5 && TsToMmss(t)[2] == ':'
  {
    Fields(t);
    assert Minutes(t) < 100 by {
      assert (t / 60.0) < 100.0;
    }
  }

  /**
   * The tag is the fixed prefix followed by the start's label, which reads
   * back as the start's whole seconds; the audio path does not change it.
   */
  lemma TagNamesStart(audioPath: string, other: string, start: real)
    requires start >= 0.0
    ensures var r := AudioFragmentTag(audioPath, start);
      && r[..9] == "Start at "
      && r[9..] == TsToMmss(start)
      && ParseMmss(r[9..]) == start.Floor
      && r == AudioFragmentTag(other, start)
  {
    var r := AudioFragmentTag(audioPath, start);
    assert r[9..] == TsToMmss(start);
    MmssRoundTrip(start);
  }
}
