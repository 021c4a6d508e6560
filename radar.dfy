/** The radar chart's input (app.py, `labels_closed` and `values_closed`): the
    catalog names and their scores, with the first point repeated at the end so
    that the polygon closes. */
module Radar {
  import opened Catalog
  import opened Scoring

  /** `s + [s[0]]`. */
  function Close<T>(s: seq<T>): (r: seq<T>)
    requires |s| > 0
    ensures |r| == |s| + 1
    ensures r[..|s|] == s && r[|s|] == r[0]
  {
    s + [s[0]]
  }

  /** The two closed lists handed to the chart: angles and radii. */
  datatype RadarSeries = RadarSeries(theta: seq<string>, radii: seq<real>)

  /** `values = [dimension_scores[d] for d in labels]`, then both lists closed.
      Looking a label up in `scores` is a `KeyError` in the source unless the
      label is there. */
  function ClosedSeries(labels: seq<string>, scores: map<string, real>): (rs: RadarSeries)
    requires |labels| > 0
    requires forall i :: 0 <= i < |labels| ==> labels[i] in scores
    ensures |rs.theta| == |labels| + 1 && |rs.radii| == |labels| + 1
    ensures rs.theta[..|labels|] == labels
    ensures forall i :: 0 <= i < |labels| ==> rs.radii[i] == scores[labels[i]]
    ensures rs.theta[|labels|] == rs.theta[0] && rs.radii[|labels|] == rs.radii[0]
  {
    var values := seq(|labels|, i requires 0 <= i < |labels| => scores[labels[i]]);
    RadarSeries(Close(labels), Close(values))
  }

  /** The radar of a pass over the questionnaire lists the catalog's names and
      their averages in catalog order, closes on the first of them, and every
      radius lies in [1,5], inside the chart's [0,5] axis. */
  lemma RadarOfAssessment(catalog: seq<Dimension>, user: string, answers: Answers)
    requires DistinctNames(catalog) && Scorable(catalog)
    ensures var t := Assess(catalog, user, answers).dimensionScores;
      (forall i :: 0 <= i < |catalog| ==> catalog[i].name in ToMap(t))
      && var rs := ClosedSeries(Names(catalog), ToMap(t));
      |rs.radii| == |catalog| + 1
      && (forall i :: 0 <= i < |catalog| ==>
            rs.theta[i] == catalog[i].name && rs.radii[i] == t[i].score && 1.0 <= rs.radii[i] <= 5.0)
      && rs.theta[|catalog|] == catalog[0].name && rs.radii[|catalog|] == t[0].score
  {
    AssessmentCoversCatalog(catalog, user, answers);
    AssessmentInRange(catalog, user, answers);
  }
}
