/**
 * The lip-sync animator: the mean loudness of a byte spectrum picks one
 * of nine mouth shapes, and the character is told only about changes.
 */
module LipSync {
  /** The mouth shapes, quietest first. */
  datatype Viseme = Rest | M | A | E | I | O | U | F | L

  const Sequence: seq<Viseme> := [Rest, M, A, E, I, O, U, F, L]

  /** An analyser with an FFT size of 512 reports 256 frequency bins. */
  const BinCount: nat := 256

  /** A spectrum as the analyser fills it: one byte per bin. */
  predicate IsSpectrum(s: seq<int>)
  {
    |s| == BinCount && forall i :: 0 <= i < |s| ==> 0 <= s[i] <= 255
  }

  /** The running total of the summation loop after the first |s| bins. */
  function Sum(s: seq<int>): int
  {
    if s == [] then 0 else Sum(s[..|s| - 1]) + s[|s| - 1]
  }

  /** Bytes sum to between 0 and 255 per bin. */
  lemma {:induction false} SumBounds(s: seq<int>)
    requires forall i :: 0 <= i < |s| ==> 0 <= s[i] <= 255
    ensures 0 <= Sum(s) <= 255 * |s|
  {
    if s != [] {
      SumBounds(s[..|s| - 1]);
    }
  }

  /** A spectrum with every bin at `c` sums to c times its length. */
  lemma {:induction false} SumConstant(s: seq<int>, c: int)
    requires forall i :: 0 <= i < |s| ==> s[i] == c
    ensures Sum(s) == c * |s|
  {
    if s != [] {
      SumConstant(s[..|s| - 1], c);
    }
  }

  function Mean(s: seq<int>): (m: real)
    requires IsSpectrum(s)
    ensures 0.0 <= m <= 255.0
  {
    SumBounds(s);
    Sum(s) as real / BinCount as real
  }

  /** floor(average / 255 * 9), capped at the last shape. */
  function VisemeIndex(average: real): (k: int)
    ensures k <= |Sequence| - 1
    ensures average >= 0.0 ==> 0 <= k
    ensures 0.0 <= average && average / 255.0 * 9.0 < 8.0 ==> k == (average / 255.0 * 9.0).Floor
    ensures 8.0 <= average / 255.0 * 9.0 ==> k == |Sequence| - 1
  {
    var raw := (average / 255.0 * 9.0).Floor;
    if |Sequence| - 1 < raw then |Sequence| - 1 else raw
  }

  /** A louder spectrum never picks an earlier shape. */
  lemma VisemeIndexMonotone(a: real, b: real)
    requires a <= b
    ensures VisemeIndex(a) <= VisemeIndex(b)
  {
    assert a / 255.0 * 9.0 <= b / 255.0 * 9.0;
  }

  /** The shape a spectrum picks. */
  function VisemeOf(s: seq<int>): Viseme
    requires IsSpectrum(s)
  {
    Sequence[VisemeIndex(Mean(s))]
  }

  /** Silence rests the mouth. */
  lemma SilenceRests(s: seq<int>)
    requires IsSpectrum(s) && forall i :: 0 <= i < |s| ==> s[i] == 0
    ensures VisemeOf(s) == Rest
  {
    SumConstant(s, 0);
  }

  /** A spectrum at full scale in every bin picks the last shape, L. */
  lemma FullScaleIsL(s: seq<int>)
    requires IsSpectrum(s) && forall i :: 0 <= i < |s| ==> s[i] == 255
    ensures VisemeOf(s) == L
  {
    SumConstant(s, 255);
    assert Mean(s) == 255.0;
  }

  class LipSyncAnimator {
    var lastViseme: Viseme
    /** Every setViseme call made on the character, in order. */
    var calls: seq<Viseme>

    /**
     * The calls never repeat a shape back to back, the first is never
     * Rest, and the last is the shape remembered.
     */
    ghost predicate Valid()
      reads this
    {
      && (calls == [] ==> lastViseme == Rest)
      && (calls != [] ==> calls[|calls| - 1] == lastViseme && calls[0] != Rest)
      && forall k :: 0 < k < |calls| ==> calls[k - 1] != calls[k]
    }

    constructor()
      ensures Valid() && lastViseme == Rest && calls == []
    {
      lastViseme := Rest;
      calls := [];
    }

    /** update: sum the bins, pick the shape, and tell the character only when it changed. */
    method Update(spectrum: seq<int>)
      requires Valid() && IsSpectrum(spectrum)
      modifies this
      ensures Valid()
      ensures lastViseme == VisemeOf(spectrum)
      ensures calls == old(calls) + (if VisemeOf(spectrum) == old(lastViseme) then [] else [VisemeOf(spectrum)])
    {
      var total := 0;
      var i := 0;
      while i < |spectrum|
        invariant 0 <= i <= |spectrum|
        invariant total == Sum(spectrum[..i])
      {
        assert spectrum[..i + 1][..i] == spectrum[..i];
        total := total + spectrum[i];
        i := i + 1;
      }
      assert spectrum[..i] == spectrum;
      SumBounds(spectrum);
      var average := total as real / |spectrum| as real;
      var viseme := Sequence[VisemeIndex(average)];
      if viseme != lastViseme {
        calls := calls + [viseme];
        lastViseme := viseme;
      }
    }
  }
}
