/** Scoring (app.py, the questionnaire loop and the overall score): slider
    answers are summed per dimension, averaged over the dimension's question
    count and rounded to two decimals; the overall score is the rounded mean of
    the dimension averages. Arithmetic is exact (`real`), with the rounding
    step written out. */
module Scoring {
  import opened Wrappers
  import opened Catalog
  import Bands

  /** A slider answer: an integer from 1 to 5. */
  type Response = x: int | 1 <= x <= 5 witness 3

  /** The slider's initial position. */
  const DefaultResponse: Response := 3

  /** Identifies one slider: the signed-in user, the dimension and the 1-based
      question number. */
  datatype SliderKey = SliderKey(user: string, dimension: string, index: nat)

  /** The slider positions the session holds; a slider not yet moved is absent. */
  type Answers = map<SliderKey, Response>

  /** One entry of `dimension_scores`. */
  datatype DimensionScore = DimensionScore(name: string, score: real)

  /** The result of one pass over the questionnaire: `dimension_scores` in
      insertion order, and `overall`. */
  datatype Assessment = Assessment(dimensionScores: seq<DimensionScore>, overall: real)

  /** The Python exception the pass can end in: dividing by an empty count. */
  datatype ScoreError = ZeroDivision

  // ---------------------------------------------------------------------------
  // Rounding
  // ---------------------------------------------------------------------------

  /** `x` is a whole number of hundredths. */
  predicate IsHundredths(x: real)
  {
    (x * 100.0).Floor as real == x * 100.0
  }

  /** `x` is a whole number of quarters. */
  predicate IsQuarters(x: real)
  {
    (x * 4.0).Floor as real == x * 4.0
  }

  /** `x` is a whole number of twentieths (multiples of 0.05). */
  predicate IsTwentieths(x: real)
  {
    (x * 20.0).Floor as real == x * 20.0
  }

  /** A whole number is its own floor. */
  lemma FloorOfWhole(x: real, k: int)
    requires x == k as real
    ensures x.Floor == k
  {
  }

  /** `round(x, 2)`: the nearest multiple of 0.01, ties to the even hundredth. */
  function Round2(x: real): (r: real)
    ensures IsHundredths(r)
    ensures -0.005 <= r - x <= 0.005
    ensures x * 100.0 - (x * 100.0).Floor as real == 0.5 ==> (r * 100.0).Floor % 2 == 0
    ensures IsHundredths(x) ==> r == x
  {
    var y := x * 100.0;
    var f := y.Floor;
    var frac := y - f as real;
    assert 0.0 <= frac < 1.0;
    var n := if frac < 0.5 then f
             else if frac > 0.5 then f + 1
             else if f % 2 == 0 then f else f + 1;
    var r := n as real / 100.0;
    assert r * 100.0 == n as real;
    FloorOfWhole(r * 100.0, n);
    assert -0.5 <= n as real - y <= 0.5;
    r
  }

  /** Rounding keeps a value between two hundredths that enclose it. */
  lemma Round2Between(x: real, lo: real, hi: real)
    requires IsHundredths(lo) && IsHundredths(hi)
    requires lo <= x <= hi
    ensures lo <= Round2(x) <= hi
  {
    var r := Round2(x);
    var n := (r * 100.0).Floor;
    var a := (lo * 100.0).Floor;
    var b := (hi * 100.0).Floor;
    assert a as real <= x * 100.0 <= b as real;
    assert n as real == r * 100.0;
    assert x * 100.0 - 0.5 <= n as real <= x * 100.0 + 0.5;
    assert a <= n <= b;
  }

  // ---------------------------------------------------------------------------
  // Sums and means
  // ---------------------------------------------------------------------------

  function Sum(s: seq<int>): int
  {
    if s == [] then 0 else Sum(s[..|s| - 1]) + s[|s| - 1]
  }

  function SumReals(s: seq<real>): real
  {
    if s == [] then 0.0 else SumReals(s[..|s| - 1]) + s[|s| - 1]
  }

  /** The arithmetic mean, exactly. */
  function Mean(s: seq<int>): real
    requires |s| > 0
  {
    Sum(s) as real / |s| as real
  }

  lemma {:induction false} SumBounds(s: seq<Response>)
    ensures |s| <= Sum(s) <= 5 * |s|
  {
    if s != [] {
      SumBounds(s[..|s| - 1]);
    }
  }

  lemma {:induction false} SumConstant(s: seq<int>, v: int)
    requires forall i :: 0 <= i < |s| ==> s[i] == v
    ensures Sum(s) == v * |s|
  {
    if s != [] {
      SumConstant(s[..|s| - 1], v);
    }
  }

  lemma {:induction false} SumRealsBounds(s: seq<real>, lo: real, hi: real)
    requires forall i :: 0 <= i < |s| ==> lo <= s[i] <= hi
    ensures lo * |s| as real <= SumReals(s) <= hi * |s| as real
  {
    if s != [] {
      SumRealsBounds(s[..|s| - 1], lo, hi);
    }
  }

  lemma {:induction false} SumRealsConstant(s: seq<real>, v: real)
    requires forall i :: 0 <= i < |s| ==> s[i] == v
    ensures SumReals(s) == v * |s| as real
  {
    if s != [] {
      SumRealsConstant(s[..|s| - 1], v);
    }
  }

  /** A sum of multiples of 1/4 is a multiple of 1/4. */
  lemma {:induction false} SumRealsQuarters(s: seq<real>)
    requires forall i :: 0 <= i < |s| ==> IsQuarters(s[i])
    ensures IsQuarters(SumReals(s))
  {
    if s != [] {
      var p := s[..|s| - 1];
      SumRealsQuarters(p);
      var a := (SumReals(p) * 4.0).Floor;
      var b := (s[|s| - 1] * 4.0).Floor;
      assert SumReals(s) == SumReals(p) + s[|s| - 1];
      FloorOfWhole(SumReals(s) * 4.0, a + b);
    }
  }

  lemma DivideBounds(a: real, n: real, lo: real, hi: real)
    requires n > 0.0 && lo * n <= a <= hi * n
    ensures lo <= a / n <= hi
  {
    assert (a / n) * n == a;
  }

  lemma {:induction false} MeanBounds(s: seq<Response>)
    requires |s| > 0
    ensures 1.0 <= Mean(s) <= 5.0
  {
    SumBounds(s);
    DivideBounds(Sum(s) as real, |s| as real, 1.0, 5.0);
  }

  // ---------------------------------------------------------------------------
  // The specification of one pass
  // ---------------------------------------------------------------------------

  /** The value a slider reports: its stored position, or the default. */
  function Answer(answers: Answers, key: SliderKey): (v: Response)
    ensures key !in answers ==> v == DefaultResponse
    ensures key in answers ==> v == answers[key]
  {
    if key in answers then answers[key] else DefaultResponse
  }

  /** The values the sliders of one dimension report, question by question. */
  function Responses(dim: Dimension, user: string, answers: Answers): (rs: seq<Response>)
    ensures |rs| == |dim.questions|
    ensures forall i :: 0 <= i < |rs| ==> rs[i] == Answer(answers, SliderKey(user, dim.name, i + 1))
  {
    seq(|dim.questions|, i requires 0 <= i => Answer(answers, SliderKey(user, dim.name, i + 1)))
  }

  /** Every dimension has a question and there is a dimension: no division by zero. */
  predicate Scorable(catalog: seq<Dimension>)
  {
    |catalog| > 0 && forall i :: 0 <= i < |catalog| ==> |catalog[i].questions| > 0
  }

  /** The rounded average of one dimension. */
  function DimensionAverage(dim: Dimension, user: string, answers: Answers): real
    requires |dim.questions| > 0
  {
    Round2(Mean(Responses(dim, user, answers)))
  }

  /** `dimension_scores` after the loop. */
  function ScoreTable(catalog: seq<Dimension>, user: string, answers: Answers): (t: seq<DimensionScore>)
    requires forall i :: 0 <= i < |catalog| ==> |catalog[i].questions| > 0
    ensures |t| == |catalog|
  {
    seq(|catalog|, i requires 0 <= i < |catalog| =>
      DimensionScore(catalog[i].name, DimensionAverage(catalog[i], user, answers)))
  }

  /** `dimension_scores.values()`. */
  function Scores(t: seq<DimensionScore>): (v: seq<real>)
    ensures |v| == |t| && forall i :: 0 <= i < |t| ==> v[i] == t[i].score
  {
    seq(|t|, i requires 0 <= i < |t| => t[i].score)
  }

  /** The rounded mean of the dimension scores, each dimension weighing the same. */
  function OverallScore(scores: seq<real>): real
    requires |scores| > 0
  {
    Round2(SumReals(scores) / |scores| as real)
  }

  /** What one pass over the questionnaire computes. */
  function Assess(catalog: seq<Dimension>, user: string, answers: Answers): Assessment
    requires Scorable(catalog)
  {
    var t := ScoreTable(catalog, user, answers);
    Assessment(t, OverallScore(Scores(t)))
  }

  /** The dict view of `dimension_scores`: a later entry for a name replaces an
      earlier one, as a dict assignment does. */
  function ToMap(t: seq<DimensionScore>): map<string, real>
  {
    if t == [] then map[] else ToMap(t[..|t| - 1])[t[|t| - 1].name := t[|t| - 1].score]
  }

  lemma {:induction false} ToMapLookup(t: seq<DimensionScore>)
    requires forall i, j :: 0 <= i < j < |t| ==> t[i].name != t[j].name
    ensures ToMap(t).Keys == set i | 0 <= i < |t| :: t[i].name
    ensures forall i :: 0 <= i < |t| ==> ToMap(t)[t[i].name] == t[i].score
  {
    if t != [] {
      var p := t[..|t| - 1];
      ToMapLookup(p);
      assert (set i | 0 <= i < |t| :: t[i].name) == (set i | 0 <= i < |p| :: p[i].name) + {t[|t| - 1].name};
    }
  }

  // ---------------------------------------------------------------------------
  // The loop
  // ---------------------------------------------------------------------------

  /** One pass over the questionnaire: for each dimension in catalog order, add
      up its sliders, store the rounded average; then round the mean of the
      averages. Ends in a division by zero when a dimension has no question or
      the catalog is empty. */
  method ScoreAssessment(catalog: seq<Dimension>, user: string, answers: Answers)
    returns (res: Result<Assessment, ScoreError>)
    requires DistinctNames(catalog)
    ensures res.Failure? <==> !Scorable(catalog)
    ensures res.Success? ==> Scorable(catalog) && res.value == Assess(catalog, user, answers)
  {
    var dimensionScores: seq<DimensionScore> := [];
    for k := 0 to |catalog|
      invariant |dimensionScores| == k
      invariant forall j :: 0 <= j < k ==> |catalog[j].questions| > 0
      invariant forall j :: 0 <= j < k ==>
        dimensionScores[j] == DimensionScore(catalog[j].name, DimensionAverage(catalog[j], user, answers))
    {
      var dim := catalog[k];
      ghost var rs := Responses(dim, user, answers);
      var total: int := 0;
      for i := 0 to |dim.questions|
        invariant total == Sum(rs[..i])
      {
        var value := Answer(answers, SliderKey(user, dim.name, i + 1));
        assert rs[..i + 1][..i] == rs[..i];
        total := total + value;
      }
      if |dim.questions| == 0 {
        return Failure(ZeroDivision);
      }
      assert rs[..|dim.questions|] == rs;
      var avg := Round2(total as real / |dim.questions| as real);
      dimensionScores := dimensionScores + [DimensionScore(dim.name, avg)];
    }
    if |dimensionScores| == 0 {
      return Failure(ZeroDivision);
    }
    assert dimensionScores == ScoreTable(catalog, user, answers);
    var overall := Round2(SumReals(Scores(dimensionScores)) / |dimensionScores| as real);
    return Success(Assessment(dimensionScores, overall));
  }

  // ---------------------------------------------------------------------------
  // Properties
  // ---------------------------------------------------------------------------

  lemma MeanConstant(s: seq<int>, v: int)
    requires |s| > 0 && forall i :: 0 <= i < |s| ==> s[i] == v
    ensures Mean(s) == v as real
  {
    SumConstant(s, v);
    assert Sum(s) as real == v as real * |s| as real;
    DivideBounds(Sum(s) as real, |s| as real, v as real, v as real);
  }

  lemma Round2OfWhole(k: int)
    ensures Round2(k as real) == k as real
  {
    FloorOfWhole(k as real * 100.0, k * 100);
  }

  /** Any non-empty run of answers in [1,5] averages, after rounding, to a value
      in [1,5]. */
  lemma DimensionAverageInRange(dim: Dimension, user: string, answers: Answers)
    requires |dim.questions| > 0
    ensures 1.0 <= DimensionAverage(dim, user, answers) <= 5.0
  {
    var m := Mean(Responses(dim, user, answers));
    MeanBounds(Responses(dim, user, answers));
    Round2Between(m, 1.0, 5.0);
  }

  /** A dimension whose sliders all sit at `v`, whatever their number, scores
      exactly `v`. In particular all-1s scores 1 and all-5s scores 5. */
  lemma UniformDimension(dim: Dimension, user: string, answers: Answers, v: Response)
    requires |dim.questions| > 0
    requires forall j :: 1 <= j <= |dim.questions| ==> Answer(answers, SliderKey(user, dim.name, j)) == v
    ensures DimensionAverage(dim, user, answers) == v as real
  {
    var rs := Responses(dim, user, answers);
    forall i | 0 <= i < |rs|
      ensures rs[i] == v
    {
      assert Answer(answers, SliderKey(user, dim.name, i + 1)) == v;
    }
    MeanConstant(rs, v);
    Round2OfWhole(v);
  }

  /** The rounded mean of scores in [1,5] lies in [1,5]. */
  lemma OverallScoreInRange(scores: seq<real>)
    requires |scores| > 0
    requires forall i :: 0 <= i < |scores| ==> 1.0 <= scores[i] <= 5.0
    ensures 1.0 <= OverallScore(scores) <= 5.0
  {
    SumRealsBounds(scores, 1.0, 5.0);
    DivideBounds(SumReals(scores), |scores| as real, 1.0, 5.0);
    Round2Between(SumReals(scores) / |scores| as real, 1.0, 5.0);
  }

  /** Every score of a pass, and the overall score, lies in [1,5]. */
  lemma AssessmentInRange(catalog: seq<Dimension>, user: string, answers: Answers)
    requires Scorable(catalog)
    ensures var a := Assess(catalog, user, answers);
      (forall i :: 0 <= i < |a.dimensionScores| ==> 1.0 <= a.dimensionScores[i].score <= 5.0)
      && 1.0 <= a.overall <= 5.0
  {
    var t := ScoreTable(catalog, user, answers);
    forall i | 0 <= i < |t|
      ensures 1.0 <= t[i].score <= 5.0
    {
      DimensionAverageInRange(catalog[i], user, answers);
    }
    OverallScoreInRange(Scores(t));
  }

  /** After the loop `dimension_scores` has one entry per catalog dimension, in
      catalog order and with that dimension's average, and as a dict its keys
      are exactly the catalog's names. */
  lemma AssessmentCoversCatalog(catalog: seq<Dimension>, user: string, answers: Answers)
    requires DistinctNames(catalog) && Scorable(catalog)
    ensures var t := Assess(catalog, user, answers).dimensionScores;
      |t| == |catalog|
      && (forall i :: 0 <= i < |t| ==> t[i].name == Names(catalog)[i])
      && (forall i :: 0 <= i < |t| ==> t[i].score == DimensionAverage(catalog[i], user, answers))
      && ToMap(t).Keys == (set i | 0 <= i < |catalog| :: catalog[i].name)
      && forall i :: 0 <= i < |catalog| ==> ToMap(t)[catalog[i].name] == t[i].score
  {
    var t := ScoreTable(catalog, user, answers);
    assert Assess(catalog, user, answers).dimensionScores == t;
    forall i | 0 <= i < |t|
      ensures t[i].name == catalog[i].name
    {
    }
    ToMapLookup(t);
    assert (set i | 0 <= i < |t| :: t[i].name) == (set i | 0 <= i < |catalog| :: catalog[i].name);
  }

  /** The overall score weighs dimensions, not questions: a dimension of any
      number of questions all at 5 and one of any number all at 1 give 3. */
  lemma EqualWeighting(a: Dimension, b: Dimension, user: string, answers: Answers)
    requires |a.questions| > 0 && |b.questions| > 0
    requires forall j :: 1 <= j <= |a.questions| ==> Answer(answers, SliderKey(user, a.name, j)) == 5
    requires forall j :: 1 <= j <= |b.questions| ==> Answer(answers, SliderKey(user, b.name, j)) == 1
    ensures Assess([a, b], user, answers).overall == 3.0
  {
    UniformDimension(a, user, answers, 5);
    UniformDimension(b, user, answers, 1);
    var t := ScoreTable([a, b], user, answers);
    assert t[0].score == 5.0 && t[1].score == 1.0;
    var s := Scores(t);
    assert |s| == 2 && s[0] == 5.0 && s[1] == 1.0;
    assert SumReals(s[..1]) == 5.0 by {
      assert s[..1][..0] == [];
    }
    assert SumReals(s) / 2.0 == 3.0;
    assert IsHundredths(3.0);
  }

  /** With every slider at its default position each dimension scores 3, the
      overall score is 3, and every label is Moderate. */
  lemma DefaultAssessmentIsModerate(catalog: seq<Dimension>, user: string, answers: Answers)
    requires Scorable(catalog)
    requires forall k :: k in answers ==> k.user != user
    ensures var a := Assess(catalog, user, answers);
      (forall i :: 0 <= i < |a.dimensionScores| ==>
         a.dimensionScores[i].score == 3.0
         && Bands.InterpretScore(a.dimensionScores[i].score) == Bands.Moderate)
      && a.overall == 3.0 && Bands.InterpretScore(a.overall) == Bands.Moderate
  {
    var t := ScoreTable(catalog, user, answers);
    forall i | 0 <= i < |catalog|
      ensures t[i].score == 3.0
    {
      UniformDimension(catalog[i], user, answers, DefaultResponse);
    }
    SumRealsConstant(Scores(t), 3.0);
    assert SumReals(Scores(t)) / |t| as real == 3.0;
    assert IsHundredths(3.0);
  }

  /** In a questionnaire of five dimensions with four questions each, rounding
      never changes a value: every dimension average is a multiple of 0.25 and
      equals the exact mean, and the overall score is a multiple of 0.05 and
      equals the exact mean of the dimension scores. */
  lemma FiveByFourRoundingExact(catalog: seq<Dimension>, user: string, answers: Answers)
    requires |catalog| == 5
    requires forall i :: 0 <= i < |catalog| ==> |catalog[i].questions| == 4
    ensures Scorable(catalog)
    ensures var a := Assess(catalog, user, answers);
      (forall i :: 0 <= i < |catalog| ==>
         a.dimensionScores[i].score == Mean(Responses(catalog[i], user, answers))
         && IsQuarters(a.dimensionScores[i].score))
      && a.overall == SumReals(Scores(a.dimensionScores)) / 5.0
      && IsTwentieths(a.overall)
  {
    var t := ScoreTable(catalog, user, answers);
    forall i | 0 <= i < |catalog|
      ensures t[i].score == Mean(Responses(catalog[i], user, answers))
      ensures IsQuarters(t[i].score)
    {
      var rs := Responses(catalog[i], user, answers);
      var m := Sum(rs) as real / 4.0;
      assert Mean(rs) == m;
      FloorOfWhole(m * 100.0, 25 * Sum(rs));
      FloorOfWhole(m * 4.0, Sum(rs));
      assert t[i].score == Round2(m);
    }
    var total := SumReals(Scores(t));
    SumRealsQuarters(Scores(t));
    var q := (total * 4.0).Floor;
    var o := total / 5.0;
    FloorOfWhole(o * 100.0, 5 * q);
    FloorOfWhole(o * 20.0, q);
    assert Assess(catalog, user, answers).overall == Round2(o);
  }

  /** The shipped questionnaire is such a questionnaire, so rounding to two
      decimals is exact for it. */
  lemma ShippedRoundingExact(user: string, answers: Answers)
    ensures Scorable(Dimensions)
    ensures var a := Assess(Dimensions, user, answers);
      (forall i :: 0 <= i < |Dimensions| ==>
         a.dimensionScores[i].score == Mean(Responses(Dimensions[i], user, answers))
         && IsQuarters(a.dimensionScores[i].score))
      && a.overall == SumReals(Scores(a.dimensionScores)) / 5.0
      && IsTwentieths(a.overall)
  {
    ShippedCatalogShape();
    FiveByFourRoundingExact(Dimensions, user, answers);
  }

  /** The worked example: answers 4,4,3,5 average 4.00 (Good); answers 1,1,2,1
      average 1.25 (Critical); their mean 2.625 is a tie and rounds to the even
      hundredth 2.62 (Moderate). */
  lemma WorkedExample()
    ensures Round2(Mean([4, 4, 3, 5])) == 4.0 && Bands.InterpretScore(4.0) == Bands.Good
    ensures Round2(Mean([1, 1, 2, 1])) == 1.25 && Bands.InterpretScore(1.25) == Bands.Critical
    ensures OverallScore([4.0, 1.25]) == 2.62 && Bands.InterpretScore(2.62) == Bands.Moderate
  {
    var p: seq<int> := [4, 4, 3, 5];
    assert p[..3] == [4, 4, 3] && p[..3][..2] == [4, 4] && p[..3][..2][..1] == [4] && p[..3][..2][..1][..0] == [];
    assert Sum(p[..3][..2][..1]) == 4;
    assert Sum(p[..3][..2]) == 8;
    assert Sum(p[..3]) == 11;
    assert Sum(p) == 16;
    assert IsHundredths(4.0);
    var s: seq<int> := [1, 1, 2, 1];
    assert s[..3] == [1, 1, 2] && s[..3][..2] == [1, 1] && s[..3][..2][..1] == [1] && s[..3][..2][..1][..0] == [];
    assert Sum(s[..3][..2][..1]) == 1;
    assert Sum(s[..3][..2]) == 2;
    assert Sum(s[..3]) == 4;
    assert Sum(s) == 5;
    assert IsHundredths(1.25);
    var o: seq<real> := [4.0, 1.25];
    assert o[..1] == [4.0] && o[..1][..0] == [];
    assert SumReals(o) == 5.25;
    assert (2.625 * 100.0).Floor == 262;
  }
}
