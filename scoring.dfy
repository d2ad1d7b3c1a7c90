/** The rule-based outbreak risk scorer of one district: its history sorted by
    date, the trailing window, the rise tests, the score in tenths, the alert
    level and the explanation. */
module Scoring {
  import opened Features

  // ---------- One district's history ----------

  predicate SortedByDay(s: seq<Row>) {
    forall i, j :: 0 <= i < j < |s| ==> s[i].key.day <= s[j].key.day
  }

  function InsertByDay(r: Row, s: seq<Row>): (u: seq<Row>)
    requires SortedByDay(s)
    ensures SortedByDay(u)
    ensures multiset(u) == multiset(s) + multiset{r}
    ensures forall x :: x in u <==> x in s || x == r
  {
    if s == [] || r.key.day <= s[0].key.day then
      PrependSorted(r, s);
      [r] + s
    else
      assert s == [s[0]] + s[1..];
      var rest := InsertByDay(r, s[1..]);
      assert forall y :: y in rest ==> s[0].key.day <= y.key.day;
      PrependSorted(s[0], rest);
      [s[0]] + rest
  }

  /** A row no later than every row of a sorted list may go in front of it. */
  lemma PrependSorted(x: Row, u: seq<Row>)
    requires SortedByDay(u)
    requires forall y :: y in u ==> x.key.day <= y.key.day
    ensures SortedByDay([x] + u)
  {
    forall i, j | 0 <= i < j < |[x] + u|
      ensures ([x] + u)[i].key.day <= ([x] + u)[j].key.day
    {
      if i > 0 {
        assert ([x] + u)[i] == u[i - 1] && ([x] + u)[j] == u[j - 1];
      } else {
        assert ([x] + u)[j] == u[j - 1] && u[j - 1] in u;
      }
    }
  }

  /** The rows of s ordered by date (`sort_values("date")`). */
  function SortByDay(s: seq<Row>): (u: seq<Row>)
    ensures SortedByDay(u)
    ensures multiset(u) == multiset(s)
    ensures |u| == |s|
  {
    if s == [] then []
    else
      assert s == [s[0]] + s[1..];
      InsertByDay(s[0], SortByDay(s[1..]))
  }

  /** The rows of t that belong to district d, in table order, each as often as in t. */
  function RowsOf(t: seq<Row>, d: string): (u: seq<Row>)
    ensures forall r :: multiset(u)[r] == (if r.key.district == d then multiset(t)[r] else 0)
    ensures forall r :: r in u <==> r in t && r.key.district == d
  {
    if t == [] then []
    else
      assert t == [t[0]] + t[1..];
      (if t[0].key.district == d then [t[0]] else []) + RowsOf(t[1..], d)
  }

  /** District d's rows sorted by date: the frame the per-district scoring works on.
      It is a permutation of the district's rows, so each row of the district
      appears exactly as often as in t. */
  function History(t: seq<Row>, d: string): (h: seq<Row>)
    ensures SortedByDay(h)
    ensures multiset(h) == multiset(RowsOf(t, d))
    ensures forall r :: multiset(h)[r] == (if r.key.district == d then multiset(t)[r] else 0)
    ensures forall r :: r in h <==> r in t && r.key.district == d
  {
    var h := SortByDay(RowsOf(t, d));
    assert forall r :: r in h <==> r in multiset(RowsOf(t, d));
    h
  }

  /** The number of trailing rows averaged (`tail(7)`). */
  const TrailingRows := 7

  /** The most recent row of a history (`df.iloc[-1]`). */
  function Latest(h: seq<Row>): Row
    requires |h| > 0
  {
    h[|h| - 1]
  }

  /** The last at most TrailingRows rows of a history, the latest row included. */
  function Window(h: seq<Row>): seq<Row> {
    if |h| <= TrailingRows then h else h[|h| - TrailingRows..]
  }

  /** The mean of column c over w (`.mean()`). */
  function Mean(w: seq<Row>, c: Column): real
    requires |w| > 0
  {
    (ColumnTotal(w, c) as real) / (|w| as real)
  }

  /** The latest value of c exceeds 1.5 times its trailing mean, in integers:
      2 x |window| x latest > 3 x (window sum). */
  predicate Rise(h: seq<Row>, c: Column)
    requires |h| > 0
  {
    2 * |Window(h)| * Latest(h).counts.Get(c) > 3 * ColumnTotal(Window(h), c)
  }

  // ---------- Facts about the window and the rise tests ----------

  /** A column sum is at least the value of the last row. */
  lemma {:induction false} TotalAtLeastLast(w: seq<Row>, c: Column)
    requires |w| > 0
    ensures ColumnTotal(w, c) >= w[|w| - 1].counts.Get(c)
  {
    if |w| > 1 {
      assert w[1..][|w[1..]| - 1] == w[|w| - 1];
      TotalAtLeastLast(w[1..], c);
    }
  }

  /** The window is non-empty, at most TrailingRows long, and ends with the latest row. */
  lemma WindowHoldsLatest(h: seq<Row>)
    requires |h| > 0
    ensures 0 < |Window(h)| <= TrailingRows
    ensures Window(h)[|Window(h)| - 1] == Latest(h)
  {
  }

  lemma ScaleBoth(a: real, b: real, k: real)
    requires k > 0.0
    ensures a > b <==> a * k > b * k
  {
  }

  /** x > 1.5 x (s / n) is 2 x n x x > 3 x s, for n > 0. */
  lemma ThresholdAsMean(x: nat, s: nat, n: nat)
    requires n > 0
    ensures 2 * n * x > 3 * s <==> (x as real) > ((s as real) / (n as real)) * 1.5
  {
    var xr, sr, nr := x as real, s as real, n as real;
    var m := sr / nr;
    assert m * nr == sr;
    ScaleBoth(xr, m * 1.5, 2.0 * nr);
    assert (m * 1.5) * (2.0 * nr) == 3.0 * sr;
    assert xr * (2.0 * nr) == (2 * n * x) as real;
    assert 3.0 * sr == (3 * s) as real;
  }

  /** The integer form of the rise test is the Python test at predict.py:109 and :112,
      a comparison against 1.5 x the mean. */
  lemma RiseAsMean(h: seq<Row>, c: Column)
    requires |h| > 0
    ensures |Window(h)| > 0
    ensures Rise(h, c) <==> (Latest(h).counts.Get(c) as real) > Mean(Window(h), c) * 1.5
  {
    WindowHoldsLatest(h);
    ThresholdAsMean(Latest(h).counts.Get(c), ColumnTotal(Window(h), c), |Window(h)|);
  }

  /** Whenever a rise test holds, the trailing sum (hence the mean) is positive:
      the window includes the latest row. */
  lemma RiseMeansPositiveTotal(h: seq<Row>, c: Column)
    requires |h| > 0 && Rise(h, c)
    ensures ColumnTotal(Window(h), c) > 0
    ensures Mean(Window(h), c) > 0.0
  {
    WindowHoldsLatest(h);
    TotalAtLeastLast(Window(h), c);
    var s, n := ColumnTotal(Window(h), c) as real, |Window(h)| as real;
    assert s / n > 0.0 by {
      assert s > 0.0 && n > 0.0;
    }
  }

  /** With a single row of history neither rise test can hold. */
  lemma SingleRowNoRise(h: seq<Row>, c: Column)
    requires |h| == 1
    ensures !Rise(h, c)
  {
    assert Window(h) == h;
    assert ColumnTotal(h, c) == h[0].counts.Get(c) by {
      assert h[1..] == [];
    }
  }

  /** The percentage rise of the latest hospital count over the trailing mean;
      the rise test guarantees a non-zero divisor. */
  function RisePercent(h: seq<Row>): real
    requires |h| > 0 && Rise(h, HospitalCases)
  {
    RiseMeansPositiveTotal(h, HospitalCases);
    var avg := Mean(Window(h), HospitalCases);
    ((Latest(h).counts.hospitalCaseCount as real) - avg) / avg * 100.0
  }

  // ---------- Score, alert level and explanation ----------

  datatype AlertLevel = Low | Medium | High

  /** The clauses of the explanation text, in order; the numbers they print are carried exactly. */
  datatype Clause =
    | NormalTrends                             // "Normal trends detected."
    | AnomalousSpike                           // "Anomalous spike detected."
    | CaseRise(cases: nat, risePercent: real)  // " (<cases> cases, <percent>% rise)"
    | NegativePostsSpike                       // " and negative social posts spike"
    | ForecastRise(forecastCases: real)        // " - Forecast predicts rise to <forecast> cases."

  /** One district's result: its latest row, the score in tenths, the alert level, the explanation. */
  datatype Assessment = Assessment(
    district: string,
    day: Day,
    counts: Counts,
    scoreTenths: int,
    alertLevel: AlertLevel,
    explanation: seq<Clause>)

  function Indicator(b: bool): nat {
    if b then 1 else 0
  }

  /** The additive heuristic in tenths: 5 for an anomaly, 2 more for each rise
      when anomalous, 1 for a forecast rise whether anomalous or not. */
  function RiskScore(anomalous: bool, hospitalRise: bool, negativeRise: bool, forecastRise: bool): (score: int)
    ensures 0 <= score <= 10
    ensures anomalous ==> score >= 5
    ensures !anomalous ==> score == Indicator(forecastRise)
  {
    5 * Indicator(anomalous)
    + 2 * Indicator(anomalous && hospitalRise)
    + 2 * Indicator(anomalous && negativeRise)
    + Indicator(forecastRise)
  }

  /** `min(1.0, max(0.0, score))`, in tenths. */
  function Clamp(score: int): (c: int)
    ensures 0 <= c <= 10
    ensures 0 <= score <= 10 ==> c == score
  {
    if score < 0 then 0 else if score > 10 then 10 else score
  }

  /** The alert level of a score in tenths: the three levels partition the scores,
      with 0.7 itself Medium and 0.4 itself Low. */
  function AlertOf(score: int): (a: AlertLevel)
    ensures a == High <==> score > 7
    ensures a == Medium <==> 4 < score <= 7
    ensures a == Low <==> score <= 4
  {
    if score > 7 then High else if score > 4 then Medium else Low
  }

  /** The forecast exceeds 1.5 x the latest hospital count. */
  predicate ForecastRises(futureCases: real, latest: Counts) {
    futureCases > (latest.hospitalCaseCount as real) * 1.5
  }

  function ExplanationOf(h: seq<Row>, anomalous: bool, futureCases: real): seq<Clause>
    requires |h| > 0
  {
    var latest := Latest(h).counts;
    (if anomalous then
       [AnomalousSpike]
       + (if Rise(h, HospitalCases) then [CaseRise(latest.hospitalCaseCount, RisePercent(h))] else [])
       + (if Rise(h, NegativePosts) then [NegativePostsSpike] else [])
     else [NormalTrends])
    + (if ForecastRises(futureCases, latest) then [ForecastRise(futureCases)] else [])
  }

  /** The assessment the scorer produces for a history, the anomaly flag of its
      latest row and the forecast. */
  function AssessmentOf(h: seq<Row>, anomalous: bool, futureCases: real): Assessment
    requires |h| > 0
  {
    var latest := Latest(h);
    var score := Clamp(RiskScore(anomalous, Rise(h, HospitalCases), Rise(h, NegativePosts),
                                 ForecastRises(futureCases, latest.counts)));
    Assessment(latest.key.district, latest.key.day, latest.counts, score, AlertOf(score),
               ExplanationOf(h, anomalous, futureCases))
  }

  /** The scorer as `predict_and_save` runs it: accumulate the score and the explanation,
      clamp, pick the level. */
  method AssessDistrict(h: seq<Row>, anomalous: bool, futureCases: real) returns (a: Assessment)
    requires |h| > 0
    ensures a == AssessmentOf(h, anomalous, futureCases)
  {
    var latest := Latest(h);
    var score := 0;
    var level := Low;
    var explanation := [NormalTrends];
    if anomalous {
      score := score + 5;
      explanation := [AnomalousSpike];
      if Rise(h, HospitalCases) {
        score := score + 2;
        explanation := explanation + [CaseRise(latest.counts.hospitalCaseCount, RisePercent(h))];
      }
      if Rise(h, NegativePosts) {
        score := score + 2;
        explanation := explanation + [NegativePostsSpike];
      }
    }
    if ForecastRises(futureCases, latest.counts) {
      score := score + 1;
      explanation := explanation + [ForecastRise(futureCases)];
    }
    score := Clamp(score);
    if score > 7 {
      level := High;
    } else if score > 4 {
      level := Medium;
    }
    a := Assessment(latest.key.district, latest.key.day, latest.counts, score, level, explanation);
  }

  // ---------- Properties of the scorer ----------

  /** The score lies in [0, 10] tenths without any clamping, and only the values
      0, 1, 5, 6, 7, 8, 9 and 10 occur. */
  lemma ScoreBounds(h: seq<Row>, anomalous: bool, futureCases: real)
    requires |h| > 0
    ensures var a := AssessmentOf(h, anomalous, futureCases);
      && 0 <= a.scoreTenths <= 10
      && a.scoreTenths == RiskScore(anomalous, Rise(h, HospitalCases), Rise(h, NegativePosts),
                                    ForecastRises(futureCases, Latest(h).counts))
      && a.scoreTenths in {0, 1, 5, 6, 7, 8, 9, 10}
  {
  }

  /** Without an anomaly the score is the forecast term alone (0 or 1), the
      explanation starts "Normal trends detected." and the level is Low; with one
      the score is at least 5, the explanation starts "Anomalous spike detected."
      and the level is Medium or High. */
  lemma AnomalyDecides(h: seq<Row>, anomalous: bool, futureCases: real)
    requires |h| > 0
    ensures var a := AssessmentOf(h, anomalous, futureCases);
      && |a.explanation| > 0
      && (!anomalous ==>
            && a.scoreTenths == Indicator(ForecastRises(futureCases, Latest(h).counts))
            && a.explanation[0] == NormalTrends)
      && (anomalous ==> a.scoreTenths >= 5 && a.explanation[0] == AnomalousSpike)
      && (a.alertLevel == Low <==> !anomalous)
  {
  }

  /** Each clause appears exactly when its condition holds. */
  lemma ExplanationClauses(h: seq<Row>, anomalous: bool, futureCases: real)
    requires |h| > 0
    ensures var e := AssessmentOf(h, anomalous, futureCases).explanation;
      && ((exists i :: 0 <= i < |e| && e[i].CaseRise?) <==> anomalous && Rise(h, HospitalCases))
      && (NegativePostsSpike in e <==> anomalous && Rise(h, NegativePosts))
      && (ForecastRise(futureCases) in e <==> ForecastRises(futureCases, Latest(h).counts))
      && (NormalTrends in e <==> !anomalous)
  {
    var e := AssessmentOf(h, anomalous, futureCases).explanation;
    if anomalous && Rise(h, HospitalCases) {
      assert e[1].CaseRise?;
    }
  }

  /** The level boundaries: 0.7 is Medium, 0.4 is Low. */
  lemma AlertBoundaries()
    ensures AlertOf(7) == Medium && AlertOf(8) == High
    ensures AlertOf(4) == Low && AlertOf(5) == Medium
  {
  }

  /** The assessment carries the latest row of the history, whose date is the largest. */
  lemma AssessmentIsLatest(h: seq<Row>, anomalous: bool, futureCases: real)
    requires |h| > 0 && SortedByDay(h)
    ensures var a := AssessmentOf(h, anomalous, futureCases);
      && Row(Key(a.district, a.day), a.counts) == Latest(h)
      && forall r :: r in h ==> r.key.day <= a.day
  {
  }

  // ---------- A worked district ----------

  function DayOf(day: Day, hospital: nat, negative: nat): Row {
    Row(Key("Pune", day), Counts(hospital, 0, 0, negative, negative))
  }

  /** Five days with hospital counts 10, 10, 10, 10, 60 and negative posts
      0, 0, 0, 0, 10: the trailing mean of hospital cases is 20, so the latest
      day is a 200% rise; with the anomaly flag set and a forecast of 40 cases
      (below 1.5 x 60) the score is 0.9 and the alert High. Without the flag
      the same history scores 0 and is Low. */
  lemma WorkedDistrict()
    ensures var h := [DayOf(1, 10, 0), DayOf(2, 10, 0), DayOf(3, 10, 0), DayOf(4, 10, 0), DayOf(5, 60, 10)];
      && AssessmentOf(h, true, 40.0)
         == Assessment("Pune", 5, Counts(60, 0, 0, 10, 10), 9, High,
                       [AnomalousSpike, CaseRise(60, 200.0), NegativePostsSpike])
      && AssessmentOf(h, false, 40.0)
         == Assessment("Pune", 5, Counts(60, 0, 0, 10, 10), 0, Low, [NormalTrends])
  {
    var h := [DayOf(1, 10, 0), DayOf(2, 10, 0), DayOf(3, 10, 0), DayOf(4, 10, 0), DayOf(5, 60, 10)];
    assert Window(h) == h;
    assert ColumnTotal(h, HospitalCases) == 100;
    assert ColumnTotal(h, NegativePosts) == 10;
    assert Mean(h, HospitalCases) == 20.0;
  }
}
