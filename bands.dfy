/** The qualitative reading of a score (`interpret_score` in app.py). */
module Bands {

  /** The five labels, from the lowest band to the highest. */
  datatype Label = Critical | Weak | Moderate | Good | VeryStrong {

    /** The text the application shows for the label. */
    function Name(): string
    {
      match this
      case Critical => "Critical"
      case Weak => "Weak"
      case Moderate => "Moderate"
      case Good => "Good"
      case VeryStrong => "Very strong"
    }

    /** Position of the band in the order Critical < Weak < ... < Very strong. */
    function Rank(): nat
    {
      match this
      case Critical => 0
      case Weak => 1
      case Moderate => 2
      case Good => 3
      case VeryStrong => 4
    }

    /** The interval of scores the band stands for; each band owns its upper
        cut point. */
    predicate Contains(score: real)
    {
      match this
      case Critical => score <= 1.5
      case Weak => 1.5 < score <= 2.5
      case Moderate => 2.5 < score <= 3.5
      case Good => 3.5 < score <= 4.5
      case VeryStrong => 4.5 < score
    }
  }

  /** The cut points between consecutive bands, in increasing order. */
  const CutPoints: seq<real> := [1.5, 2.5, 3.5, 4.5]

  /** Reference definition of a band: the number of cut points the score is
      strictly above. */
  function CountBelow(cuts: seq<real>, score: real): (n: nat)
    ensures n <= |cuts|
  {
    if cuts == [] then 0
    else (if cuts[0] < score then 1 else 0) + CountBelow(cuts[1..], score)
  }

  /** `interpret_score`: the first band whose upper cut point is not below the
      score, the top band when the score is above every cut point. */
  function InterpretScore(score: real): (l: Label)
    ensures l.Contains(score)
  {
    if score <= 1.5 then Critical
    else if score <= 2.5 then Weak
    else if score <= 3.5 then Moderate
    else if score <= 4.5 then Good
    else VeryStrong
  }

  /** The bands partition the real line: a score lies in exactly one band, and
      that band is the one `InterpretScore` returns. */
  lemma BandsPartition(score: real, l: Label)
    ensures l.Contains(score) <==> l == InterpretScore(score)
  {
  }

  /** `InterpretScore` agrees with the cut-point count: its rank is the number
      of cut points strictly below the score. */
  lemma {:induction false} InterpretScoreCountsCutPoints(score: real)
    ensures InterpretScore(score).Rank() == CountBelow(CutPoints, score)
  {
    var c := CutPoints;
    assert c[1..] == [2.5, 3.5, 4.5] && c[1..][1..] == [3.5, 4.5];
    assert c[1..][1..][1..] == [4.5] && c[1..][1..][1..][1..] == [];
    calc {
      CountBelow(c, score);
      (if 1.5 < score then 1 else 0) + CountBelow(c[1..], score);
      (if 1.5 < score then 1 else 0) + (if 2.5 < score then 1 else 0)
        + CountBelow(c[1..][1..], score);
      (if 1.5 < score then 1 else 0) + (if 2.5 < score then 1 else 0)
        + (if 3.5 < score then 1 else 0) + (if 4.5 < score then 1 else 0);
    }
  }

  /** Raising the score never lowers the number of cut points below it. */
  lemma {:induction false} CountBelowMonotone(cuts: seq<real>, s: real, t: real)
    requires s <= t
    ensures CountBelow(cuts, s) <= CountBelow(cuts, t)
  {
    if cuts != [] {
      CountBelowMonotone(cuts[1..], s, t);
    }
  }

  /** A higher score never gets a lower band. */
  lemma InterpretScoreMonotone(s: real, t: real)
    requires s <= t
    ensures InterpretScore(s).Rank() <= InterpretScore(t).Rank()
  {
    InterpretScoreCountsCutPoints(s);
    InterpretScoreCountsCutPoints(t);
    CountBelowMonotone(CutPoints, s, t);
  }

  /** Each cut point belongs to the band below it; anything above 4.5 is Very strong. */
  lemma CutPointsExact()
    ensures InterpretScore(1.5) == Critical && InterpretScore(1.51) == Weak
    ensures InterpretScore(2.5) == Weak && InterpretScore(2.51) == Moderate
    ensures InterpretScore(3.5) == Moderate && InterpretScore(3.51) == Good
    ensures InterpretScore(4.5) == Good && InterpretScore(4.51) == VeryStrong
    ensures InterpretScore(5.0) == VeryStrong
    ensures forall s: real :: s > 4.5 ==> InterpretScore(s) == VeryStrong
  {
  }

  /** Different labels are shown as different texts, so the text determines the band. */
  lemma NamesDistinct(a: Label, b: Label)
    ensures a.Name() == b.Name() <==> a == b
  {
  }
}
