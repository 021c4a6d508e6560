# Defence Readiness Radar — scoring and history model

A Dafny model of the logic of `app.py`, a self-assessment questionnaire for
defence and dual-use companies. The user moves one slider (1 to 5, initially 3)
per question. Questions are grouped into dimensions. The application:

- averages each dimension's answers and rounds the average to two decimals;
- averages the dimension scores into an overall score, weighing every dimension
  the same whatever its number of questions;
- labels each score with one of five bands;
- draws a closed radar polygon of the dimension scores;
- appends the scores to a per-user history and reads that history back in
  time order for a trend chart.

Modules, one per part of `app.py`:

- `Wrappers` (wrappers.dfy): `Option` and `Result`.
- `Bands` (bands.dfy): `interpret_score`, with a cut-point reference definition.
- `Catalog` (catalog.dfy): the `DIMENSIONS` questionnaire.
- `Scoring` (scoring.dfy): the questionnaire loop. It is an imperative method,
  `ScoreAssessment`, proved equal to the specification function `Assess`. The
  lemmas about `Assess` state the range, coverage, default and rounding facts.
- `Radar` (radar.dfy): the closed radar series.
- `History` (history.dfy): the record shape, the per-user query, the trend
  series, and a `HistoryStore` class for the table.

Arithmetic is exact (`real`). `round(x, 2)` is the explicit function
`Scoring.Round2`: the nearest hundredth, with ties going to the even hundredth.
CPython's `round` does the same on a value that is exactly representable as a
double. For the shipped questionnaire (five dimensions, four questions each),
every dimension score is a multiple of 0.25 and every overall score a multiple
of 0.05, so rounding never changes a value (`Scoring.ShippedRoundingExact`).

Python's `round` sends a tie to the even hundredth, so (4.00 + 1.25) / 2 =
2.625 becomes 2.62, not 2.63 (`Scoring.WorkedExample`). `interpret_score` has
no range check, so it labels every real number, and so does the model.

An empty questionnaire, or a dimension with no question, makes the source
divide by zero. `ScoreAssessment` returns `Failure(ZeroDivision)` in those
cases.

## Model

| member | source | states |
|---|---|---|
| `Bands.InterpretScore` | app.py:94-103 | the returned label's band contains the score: at most 1.5 is Critical, up to 2.5 Weak, up to 3.5 Moderate, up to 4.5 Good, above 4.5 Very strong |
| `Bands.BandsPartition` | app.py:94-103 | a score lies in exactly one band, and that band is the label `interpret_score` returns |
| `Bands.InterpretScoreCountsCutPoints` | app.py:94-103 | the band's rank equals the number of cut points (1.5, 2.5, 3.5, 4.5) strictly below the score |
| `Bands.InterpretScoreMonotone` | app.py:94-103 | a higher score never gets a lower band |
| `Bands.CutPointsExact` | app.py:95-103 | each cut point maps to the band below it (1.5 Critical, 2.5 Weak, 3.5 Moderate, 4.5 Good); 1.51, 2.51, 3.51, 4.51 map to the band above; every score above 4.5 is Very strong |
| `Bands.NamesDistinct` | app.py:96-103 | the five label texts are pairwise different, so the text determines the band |
| `Catalog.Names` | app.py:263 | the list of keys has one name per dimension, in catalog order |
| `Catalog.ShippedCatalogShape` | app.py:60-91 | the shipped questionnaire has five distinct dimensions (Product, Market, Documentation, Security, Certifications) of four questions each |
| `Scoring.Round2` | app.py:254 | the result is a whole number of hundredths within 0.005 of the input; a tie goes to the even hundredth; a value that already is a number of hundredths is unchanged |
| `Scoring.Round2Between` | app.py:254 | rounding keeps a value between two hundredths that enclose it |
| `Scoring.Answer` | app.py:243-251 | a slider reports its stored position, or 3 when it was never moved |
| `Scoring.Responses` | app.py:241-251 | one answer per question of the dimension, read from the slider keyed by user, dimension and 1-based question number |
| `Scoring.MeanBounds` | app.py:252-254 | the mean of a non-empty run of answers in [1,5] lies in [1,5] |
| `Scoring.ToMapLookup` | app.py:255 | filling the dict from entries with distinct names gives exactly those names as keys, each with its own score |
| `Scoring.ScoreAssessment` | app.py:233-258 | the loop fails with a division by zero exactly when the questionnaire is empty or a dimension has no question; otherwise it returns the per-dimension rounded averages in catalog order and the rounded mean of those averages, as `Assess` defines them |
| `Scoring.DimensionAverageInRange` | app.py:240-254 | every dimension score lies in [1,5] |
| `Scoring.UniformDimension` | app.py:240-254 | a dimension whose sliders all sit at v scores exactly v, whatever its number of questions: all-1s give 1, all-5s give 5 |
| `Scoring.OverallScoreInRange` | app.py:258 | the rounded mean of scores in [1,5] lies in [1,5] |
| `Scoring.AssessmentInRange` | app.py:238-258 | after a pass, every dimension score and the overall score lie in [1,5] |
| `Scoring.AssessmentCoversCatalog` | app.py:233-255 | `dimension_scores` has one entry per catalog dimension, in catalog order, holding that dimension's average; its keys are exactly the catalog's names |
| `Scoring.EqualWeighting` | app.py:258 | a dimension with any number of questions all at 5 and one with any number all at 1 give an overall score of 3: dimensions, not questions, carry the weight |
| `Scoring.DefaultAssessmentIsModerate` | app.py:247-258 | with no slider moved, every dimension scores 3, the overall score is 3, and every label is Moderate |
| `Scoring.FiveByFourRoundingExact` | app.py:254-258 | with five dimensions of four questions, every dimension score is a multiple of 0.25 equal to the exact mean, and the overall score is a multiple of 0.05 equal to the exact mean of the dimension scores |
| `Scoring.ShippedRoundingExact` | app.py:60-91 | for the shipped questionnaire, rounding to two decimals never changes a dimension score or the overall score |
| `Scoring.WorkedExample` | app.py:254-258 | answers 4,4,3,5 give 4.00 (Good); answers 1,1,2,1 give 1.25 (Critical); the tie 2.625 overall rounds to 2.62 (Moderate) |
| `Radar.Close` | app.py:265-266 | the closed list has length n+1; its first n elements are the input and its last equals its first |
| `Radar.ClosedSeries` | app.py:263-266 | angles are the labels then the first label again; radii are each label's score in order, then the first score again |
| `Radar.RadarOfAssessment` | app.py:263-266 | for a pass over the questionnaire every label is found, the radii are the dimension averages in catalog order, each in [1,5], and the polygon closes on the first dimension |
| `History.OwnedBy` | app.py:334 | keeps exactly the records whose `user_id` equals the caller's, each as often as it occurs in the table, and no other record |
| `History.InsertByTime` | app.py:335 | inserting into a time-ordered history keeps it time-ordered and adds exactly the new record |
| `History.SortByTime` | app.py:335 | the result is in ascending `created_at` order and holds the same records, each as often |
| `History.Query` | app.py:331-338 | the query returns the caller's records and only those, each as often as saved, in ascending `created_at` |
| `History.DatesAscending` | app.py:331-338 | the dates of a loaded history are in ascending order |
| `History.QueryCounts` | app.py:331-338 | each of the caller's records is loaded exactly as often as it occurs in the table, and every other record zero times |
| `History.QueryEmptyIffNoRecords` | app.py:331-338 | the history is empty exactly when the caller has saved nothing |
| `History.SavedRecordIsLoaded` | app.py:316-337 | a saved record is in its owner's history |
| `History.SaveKeepsOtherHistories` | app.py:316-337 | saving leaves every other user's history unchanged |
| `History.Dates` | app.py:362 | one date per record, in history order |
| `History.DimensionSeries` | app.py:369 | one point per record; the point is `None` exactly when the record has no score for the dimension, and otherwise that score |
| `History.OverallSeries` | app.py:378 | one overall score per record, in history order |
| `History.SavedAssessmentComplete` | app.py:316-321 | a record saved from a pass over the questionnaire has a score in [1,5] for every catalog dimension |
| `History.CompleteHistoryHasNoGaps` | app.py:362-369 | when every record is complete, every dimension series holds a value in [1,5] at every date |
| `History.HistoryStore.constructor` | app.py:52-53 | the store is enabled or not according to whether persistence is configured; when enabled it holds the rows the table already has from earlier runs, and when disabled it holds none |
| `History.HistoryStore.Save` | app.py:310-322 | when enabled, appends one record with the caller's user id, overall score and dimension scores unchanged, stamped with the given time; when disabled, changes nothing |
| `History.HistoryStore.Load` | app.py:325-338 | when enabled, returns the caller's records in ascending creation time; when disabled, returns an empty list |

## Left out

- Streamlit page setup, sliders, expanders, metrics, columns and messages (app.py:21-31, 136-219, 231-304, 341-360): user interface only.
- Supabase client creation, sign-up, login, logout and `set_user` session state (app.py:38-53, 110-129): external authentication and network service. The signed-in user id is a parameter. `SUPABASE_ENABLED` is the store's `enabled` flag.
- The stop for a visitor who is not signed in (app.py:216-219) is part of the authentication flow and is not modelled.
- Plotly figure construction and layout (app.py:268-291, 364-392): external charting library. Only the lists passed to it are modelled.
- `datetime.utcnow().isoformat()` (app.py:320): wall-clock input. Timestamps are opaque ordered values given to `Save`.
- The exception handling around the insert (app.py:346-350) and any failure of the remote table: remote error reporting. `Save` always succeeds when enabled.
- The table's row-level security is external. The model's query filters on `user_id` only.
- Scoring.Round2: is exact rounding with ties to even, not binary floating point. It agrees with Python's `round(x, 2)` whenever the exact value is a double, and also whenever the exact value is a whole number of hundredths: that value is then far from any tie, so Python returns the double nearest it. For the shipped questionnaire every dimension score is a multiple of 0.25, which is a double, and every overall score is a multiple of 0.05, which is a whole number of hundredths even where it is not a double (3.85, for one). For other questionnaires the two can differ: with 40 questions, a sum of 107 gives 2.675, which the model rounds to 2.68 while Python's float rounds to 2.67.
- Scoring.Answer: the source keys a slider by the string `f"{user_id}_{dim_name}_{i}"`. The model uses a structured key. Two different (user, dimension) pairs whose strings coincide are not modelled.
- Radar.ClosedSeries: requires a non-empty label list whose labels all have scores. The source would raise `IndexError` or `KeyError` instead, but it never reaches this code in those cases because the scoring pass has already failed.
- History.SortByTime: ties in `created_at` are ordered by the database in an unspecified way. The model keeps them in save order.
- History.HistoryStore.Save: the `scores` JSON column is modelled as a map, so insertion order inside a record is not kept. No reader depends on it.
