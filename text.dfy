/**
 * String helpers shared by the pipeline: `" ".join(...)`, decimal
 * rendering of integers (`str(n)`, `f"{n}"`) and Python's whitespace
 * word count `len(t.split())`.
 */
module Text {

  /** `" ".join(parts)` */
  function Join(parts: seq<string>): string
  {
    if |parts| == 0 then ""
    else if |parts| == 1 then parts[0]
    else parts[0] + " " + Join(parts[1..])
  }

  /** Joining two non-empty runs of parts puts exactly one separator between them. */
  lemma {:induction false} JoinAppend(a: seq<string>, b: seq<string>)
    requires |a| > 0 && |b| > 0
    ensures Join(a + b) == Join(a) + " " + Join(b)
  {
    if |a| == 1 {
      assert a + b == [a[0]] + b;
      assert (a + b)[1..] == b;
    } else {
      assert (a + b)[1..] == a[1..] + b;
      JoinAppend(a[1..], b);
    }
  }

  /** The concatenation of a sequence of runs, in order. */
  function Concat(parts: seq<seq<string>>): seq<string>
  {
    if |parts| == 0 then [] else Concat(parts[..|parts| - 1]) + parts[|parts| - 1]
  }

  /** Each run joined on its own. */
  function JoinEach(parts: seq<seq<string>>): (r: seq<string>)
    ensures |r| == |parts|
    ensures forall k :: 0 <= k < |parts| ==> r[k] == Join(parts[k])
  {
    seq(|parts|, k requires 0 <= k < |parts| => Join(parts[k]))
  }

  /**
   * Joining the joined runs gives the join of all the parts, provided no
   * run is empty: grouping loses and reorders nothing.
   */
  lemma {:induction false} JoinOfJoins(parts: seq<seq<string>>)
    requires forall k :: 0 <= k < |parts| ==> |parts[k]| > 0
    ensures Join(JoinEach(parts)) == Join(Concat(parts))
  {
    if |parts| > 1 {
      var init := parts[..|parts| - 1];
      var last := parts[|parts| - 1];
      JoinOfJoins(init);
      assert JoinEach(parts) == JoinEach(init) + [Join(last)];
      assert |Concat(init)| > 0 by {
        assert Concat(init) == Concat(init[..|init| - 1]) + init[|init| - 1];
      }
      JoinAppend(JoinEach(init), [Join(last)]);
      JoinAppend(Concat(init), last);
    } else if |parts| == 1 {
      assert parts[..0] == [];
      assert Concat(parts) == parts[0];
    }
  }

  /** The character for a decimal digit. */
  function DigitChar(d: nat): char
    requires d < 10
  {
    "0123456789"[d]
  }

  function DigitValue(c: char): nat
  {
    if '0' <= c <= '9' then (c as int - '0' as int) as nat else 0
  }

  predicate IsDigit(c: char) { '0' <= c <= '9' }

  /** `str(n)` for a non-negative integer: its decimal digits, most significant first. */
  function NatToString(n: nat): (r: string)
    ensures |r| >= 1
    ensures forall i :: 0 <= i < |r| ==> IsDigit(r[i])
    ensures n < 10 <==> |r| == 1
    ensures n >= 1 ==> r[0] != '0'
  {
    if n < 10 then [DigitChar(n)] else NatToString(n / 10) + [DigitChar(n % 10)]
  }

  /** Reading a string of decimal digits back as a number. */
  function DecimalValue(s: string): nat
  {
    if |s| == 0 then 0 else 10 * DecimalValue(s[..|s| - 1]) + DigitValue(s[|s| - 1])
  }

  /** `str` is inverted by reading the digits back. */
  lemma {:induction false} NatToStringRoundTrip(n: nat)
    ensures DecimalValue(NatToString(n)) == n
  {
    if n >= 10 {
      var s := NatToString(n);
      assert s[..|s| - 1] == NatToString(n / 10);
      NatToStringRoundTrip(n / 10);
    }
  }

  /** Distinct numbers render as distinct strings. */
  lemma NatToStringInjective(a: nat, b: nat)
    requires NatToString(a) == NatToString(b)
    ensures a == b
  {
    NatToStringRoundTrip(a);
    NatToStringRoundTrip(b);
  }

  /** `str(i)` for any integer. */
  function IntToString(i: int): string
  {
    if i < 0 then "-" + NatToString(-i) else NatToString(i)
  }

  /** Python's `str.isspace()`: the characters `str.split()` separates on. */
  predicate IsSpace(c: char)
  {
    c == ' ' || c == '\t' || c == '\n' || c == '\r' || c == '\U{0B}' || c == '\U{0C}'
    || ('\U{1C}' <= c <= '\U{1F}') || c == '\U{85}' || c == '\U{A0}' || c == '\U{1680}'
    || ('\U{2000}' <= c <= '\U{200A}') || c == '\U{2028}' || c == '\U{2029}'
    || c == '\U{202F}' || c == '\U{205F}' || c == '\U{3000}'
  }

  /** Number of maximal runs of non-space characters in `s`, where `inWord` says a run is already open. */
  function CountRuns(s: string, inWord: bool): nat
  {
    if |s| == 0 then 0
    else if IsSpace(s[0]) then CountRuns(s[1..], false)
    else (if inWord then 0 else 1) + CountRuns(s[1..], true)
  }

  /** `len(t.split())` */
  function WordCount(t: string): nat
  {
    CountRuns(t, false)
  }

  /** There are never more runs than characters, and none exactly when every character is a space. */
  lemma {:induction false} CountRunsBounds(s: string, inWord: bool)
    ensures CountRuns(s, inWord) <= |s|
    ensures !inWord ==> (CountRuns(s, inWord) == 0 <==> forall i :: 0 <= i < |s| ==> IsSpace(s[i]))
  {
    if |s| > 0 {
      CountRunsBounds(s[1..], true);
      CountRunsBounds(s[1..], false);
      assert forall i :: 1 <= i < |s| ==> s[1..][i - 1] == s[i];
    }
  }

  /** A text has at most as many words as characters, and none exactly when it is all whitespace. */
  lemma WordCountBounds(t: string)
    ensures WordCount(t) <= |t|
    ensures WordCount(t) == 0 <==> forall i :: 0 <= i < |t| ==> IsSpace(t[i])
  {
    CountRunsBounds(t, false);
  }
}
