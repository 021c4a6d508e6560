/** Saved assessments and the trend chart's input (app.py, `save_assessment`,
    `load_history` and the history series): an append-only log of records,
    read back per user in ascending creation time. Timestamps are opaque,
    totally ordered values supplied by the caller. */
module History {
  import opened Wrappers
  import opened Catalog
  import opened Scoring

  /** `datetime.utcnow().isoformat()`, as an ordered value. */
  type Timestamp = int

  /** One row of the `assessments` table. */
  datatype Record = Record(userId: string, overall: real, scores: map<string, real>, createdAt: Timestamp)

  predicate SortedByTime(s: seq<Record>)
  {
    forall i, j :: 0 <= i < j < |s| ==> s[i].createdAt <= s[j].createdAt
  }

  // ---------------------------------------------------------------------------
  // The query: `.eq("user_id", uid).order("created_at", desc=False)`
  // ---------------------------------------------------------------------------

  /** The records whose `user_id` equals `uid`, in log order. */
  function OwnedBy(records: seq<Record>, uid: string): (owned: seq<Record>)
    ensures forall x :: x in owned <==> x in records && x.userId == uid
    ensures forall x :: multiset(owned)[x] == if x.userId == uid then multiset(records)[x] else 0
  {
    if records == [] then []
    else
      var last := records[|records| - 1];
      assert records == records[..|records| - 1] + [last];
      OwnedBy(records[..|records| - 1], uid) + (if last.userId == uid then [last] else [])
  }

  /** Puts `r` into a time-ordered sequence, after every record not later than it. */
  function InsertByTime(r: Record, s: seq<Record>): (t: seq<Record>)
    requires SortedByTime(s)
    ensures SortedByTime(t)
    ensures multiset(t) == multiset(s) + multiset{r}
    ensures |t| == |s| + 1 && (t[0] == r || (s != [] && t[0] == s[0]))
  {
    if s == [] then [r]
    else if r.createdAt < s[0].createdAt then [r] + s
    else
      var rest := InsertByTime(r, s[1..]);
      var t := [s[0]] + rest;
      assert s == [s[0]] + s[1..];
      assert multiset(t) == multiset{s[0]} + multiset(rest);
      assert s[0].createdAt <= rest[0].createdAt;
      assert forall j :: 0 < j < |t| ==> t[j] == rest[j - 1];
      t
  }

  /** Orders records by `created_at`, keeping the log order among equal times. */
  function SortByTime(s: seq<Record>): (t: seq<Record>)
    ensures SortedByTime(t)
    ensures multiset(t) == multiset(s)
  {
    if s == [] then []
    else
      assert s == s[..|s| - 1] + [s[|s| - 1]];
      InsertByTime(s[|s| - 1], SortByTime(s[..|s| - 1]))
  }

  /** What the table returns for `uid`: exactly that user's records, each as
      often as it was saved, in ascending creation time. */
  function Query(records: seq<Record>, uid: string): (history: seq<Record>)
    ensures SortedByTime(history)
    ensures multiset(history) == multiset(OwnedBy(records, uid))
    ensures forall x :: x in history <==> x in records && x.userId == uid
  {
    var h := SortByTime(OwnedBy(records, uid));
    assert forall x :: x in h <==> x in multiset(OwnedBy(records, uid));
    h
  }

  /** Each of the caller's records is loaded exactly as often as it was saved,
      and no other record is loaded. */
  lemma QueryCounts(records: seq<Record>, uid: string, x: Record)
    ensures multiset(Query(records, uid))[x] == if x.userId == uid then multiset(records)[x] else 0
  {
    assert multiset(Query(records, uid))[x] == multiset(OwnedBy(records, uid))[x];
  }

  /** The trend chart's dates are in ascending order. */
  lemma DatesAscending(records: seq<Record>, uid: string)
    ensures var xs := Dates(Query(records, uid));
      forall i, j :: 0 <= i < j < |xs| ==> xs[i] <= xs[j]
  {
    var h := Query(records, uid);
    assert SortedByTime(h);
  }

  /** A user with no saved record gets an empty history, not an error. */
  lemma QueryEmptyIffNoRecords(records: seq<Record>, uid: string)
    ensures Query(records, uid) == [] <==> forall x :: x in records ==> x.userId != uid
  {
    var h := Query(records, uid);
    if h != [] {
      assert h[0] in h;
    }
  }

  /** A saved record is read back by its owner. */
  lemma SavedRecordIsLoaded(records: seq<Record>, r: Record)
    ensures r in Query(records + [r], r.userId)
  {
    assert r in records + [r];
  }

  /** Saving a record leaves every other user's history as it was. */
  lemma {:induction false} SaveKeepsOtherHistories(records: seq<Record>, r: Record, u: string)
    requires u != r.userId
    ensures Query(records + [r], u) == Query(records, u)
  {
    var after := records + [r];
    assert after[..|after| - 1] == records;
    assert after[|after| - 1].userId != u;
    calc {
      OwnedBy(after, u);
      OwnedBy(after[..|after| - 1], u) + [];
      OwnedBy(records, u);
    }
  }

  // ---------------------------------------------------------------------------
  // The trend chart's series
  // ---------------------------------------------------------------------------

  /** `[h["created_at"] for h in history]`. */
  function Dates(history: seq<Record>): (xs: seq<Timestamp>)
    ensures |xs| == |history| && forall i :: 0 <= i < |history| ==> xs[i] == history[i].createdAt
  {
    seq(|history|, i requires 0 <= i < |history| => history[i].createdAt)
  }

  /** `[h["scores"].get(dim, None) for h in history]`: one point per record,
      `None` exactly where the record has no score for the dimension. */
  function DimensionSeries(history: seq<Record>, dim: string): (ys: seq<Option<real>>)
    ensures |ys| == |history|
    ensures forall i :: 0 <= i < |history| ==>
      (ys[i] == None <==> dim !in history[i].scores)
      && (dim in history[i].scores ==> ys[i] == Some(history[i].scores[dim]))
  {
    seq(|history|, i requires 0 <= i < |history| =>
      if dim in history[i].scores then Some(history[i].scores[dim]) else None)
  }

  /** `[h["overall"] for h in history]`. */
  function OverallSeries(history: seq<Record>): (ys: seq<real>)
    ensures |ys| == |history| && forall i :: 0 <= i < |history| ==> ys[i] == history[i].overall
  {
    seq(|history|, i requires 0 <= i < |history| => history[i].overall)
  }

  /** A record has a score in [1,5] for every catalog dimension. */
  predicate CompleteFor(catalog: seq<Dimension>, r: Record)
  {
    forall i :: 0 <= i < |catalog| ==>
      catalog[i].name in r.scores && 1.0 <= r.scores[catalog[i].name] <= 5.0
  }

  /** A record saved from a pass over the questionnaire is complete for it. */
  lemma SavedAssessmentComplete(catalog: seq<Dimension>, user: string, answers: Answers, now: Timestamp)
    requires DistinctNames(catalog) && Scorable(catalog)
    ensures var a := Assess(catalog, user, answers);
      CompleteFor(catalog, Record(user, a.overall, ToMap(a.dimensionScores), now))
  {
    AssessmentCoversCatalog(catalog, user, answers);
    AssessmentInRange(catalog, user, answers);
  }

  /** When every record is complete, the trend chart has no gap: every
      dimension's series holds a value in [1,5] at every date. */
  lemma CompleteHistoryHasNoGaps(catalog: seq<Dimension>, history: seq<Record>)
    requires forall k :: 0 <= k < |history| ==> CompleteFor(catalog, history[k])
    ensures forall i, k :: 0 <= i < |catalog| && 0 <= k < |history| ==>
      DimensionSeries(history, catalog[i].name)[k].Some?
      && 1.0 <= DimensionSeries(history, catalog[i].name)[k].value <= 5.0
  {
  }

  // ---------------------------------------------------------------------------
  // The store
  // ---------------------------------------------------------------------------

  /** The `assessments` table as seen by this application. When persistence is
      not configured, saving does nothing and loading finds nothing. */
  class HistoryStore {
    const enabled: bool
    var records: seq<Record>

    /** Connects to the table, which already holds `existing` from earlier
        runs; without persistence there is no table to read. */
    constructor (enabled: bool, existing: seq<Record>)
      ensures this.enabled == enabled
      ensures records == if enabled then existing else []
    {
      this.enabled := enabled;
      records := if enabled then existing else [];
    }

    /** `save_assessment`: appends one record holding the caller's user id,
        overall score and dimension scores, stamped with `now`. */
    method Save(uid: string, scores: map<string, real>, overall: real, now: Timestamp)
      modifies this
      ensures enabled ==> records == old(records) + [Record(uid, overall, scores, now)]
      ensures !enabled ==> records == old(records)
    {
      if !enabled {
        return;
      }
      records := records + [Record(uid, overall, scores, now)];
    }

    /** `load_history`: the caller's records in ascending creation time, or
        nothing when persistence is not configured. */
    method Load(uid: string) returns (history: seq<Record>)
      ensures !enabled ==> history == []
      ensures enabled ==> history == Query(records, uid)
    {
      if !enabled {
        return [];
      }
      history := Query(records, uid);
    }
  }
}
