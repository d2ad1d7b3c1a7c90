/** One prediction run: aggregate, then score every district of the feature
    table with the loaded anomaly classifier and the trend forecaster. */
module Predict {
  import opened Wrappers
  import opened Sequences
  import opened Features
  import opened Records
  import opened Aggregate
  import opened Scoring

  /** How a run ends: no model file, an exception, or the new result set. */
  datatype Outcome = ModelMissing | Failed | Saved(results: seq<Assessment>)

  /** The series handed to the forecaster: the date and hospitalCaseCount of each history row. */
  function ForecastInput(h: seq<Row>): seq<(Day, nat)> {
    seq(|h|, i requires 0 <= i < |h| => (h[i].key.day, h[i].counts.hospitalCaseCount))
  }

  /** The forecaster's prediction for district d; None when the forecasting library raises. */
  function ForecastOf(t: seq<Row>, d: string, forecast: seq<(Day, nat)> -> Option<real>): Option<real> {
    forecast(ForecastInput(History(t, d)))
  }

  /** The anomaly flag: 1 exactly when the classifier answers -1. */
  predicate IsAnomaly(classify: Counts -> int, c: Counts) {
    classify(c) == -1
  }

  lemma HistoryNonEmpty(t: seq<Row>, d: string)
    requires d in DistrictsOf(t)
    ensures |History(t, d)| > 0
  {
    var i :| 0 <= i < |t| && t[i].key.district == d;
    assert t[i] in History(t, d);
  }

  /** The assessment of district d given its forecast value. */
  function DistrictAssessment(t: seq<Row>, d: string, classify: Counts -> int, futureCases: real): Assessment
    requires d in DistrictsOf(t)
  {
    HistoryNonEmpty(t, d);
    var h := History(t, d);
    AssessmentOf(h, IsAnomaly(classify, Latest(h).counts), futureCases)
  }

  /** results holds one assessment per district of t, in the order of `unique()`. */
  predicate SavedFor(t: seq<Row>, classify: Counts -> int, forecast: seq<(Day, nat)> -> Option<real>, results: seq<Assessment>) {
    var ds := DistrictsOf(t);
    && |results| == |ds|
    && forall i :: 0 <= i < |ds| ==>
         ForecastOf(t, ds[i], forecast).Some? &&
         results[i] == DistrictAssessment(t, ds[i], classify, ForecastOf(t, ds[i], forecast).value)
  }

  /** The model-file guard and the loop over districts. */
  method PredictAndSave(modelPresent: bool, t: seq<Row>, classify: Counts -> int, forecast: seq<(Day, nat)> -> Option<real>)
    returns (r: Outcome)
    ensures r.ModelMissing? <==> !modelPresent
    ensures r.Failed? <==>
      (modelPresent && exists i :: 0 <= i < |DistrictsOf(t)| && ForecastOf(t, DistrictsOf(t)[i], forecast).None?)
    ensures r.Saved? ==> SavedFor(t, classify, forecast, r.results)
  {
    if !modelPresent {
      return ModelMissing;
    }
    var ds := DistrictsOf(t);
    var results: seq<Assessment> := [];
    var i := 0;
    while i < |ds|
      invariant 0 <= i <= |ds|
      invariant |results| == i
      invariant forall j :: 0 <= j < i ==>
        ForecastOf(t, ds[j], forecast).Some? &&
        results[j] == DistrictAssessment(t, ds[j], classify, ForecastOf(t, ds[j], forecast).value)
    {
      var d := ds[i];
      HistoryNonEmpty(t, d);
      var h := History(t, d);
      var anomalous := IsAnomaly(classify, Latest(h).counts);
      var future := forecast(ForecastInput(h));
      if future.None? {
        return Failed;
      }
      var a := AssessDistrict(h, anomalous, future.value);
      results := results + [a];
      i := i + 1;
    }
    return Saved(results);
  }

  /** The district column of a result set. */
  function DistrictColumn(results: seq<Assessment>): seq<string> {
    seq(|results|, i requires 0 <= i < |results| => results[i].district)
  }

  /** The saved districts are the table's districts, in order: no district
      twice, and every district of the table present. */
  lemma SavedDistricts(t: seq<Row>, classify: Counts -> int, forecast: seq<(Day, nat)> -> Option<real>, results: seq<Assessment>)
    requires SavedFor(t, classify, forecast, results)
    ensures DistrictColumn(results) == DistrictsOf(t)
    ensures Distinct(DistrictColumn(results))
    ensures forall d :: d in DistrictColumn(results) <==> exists i :: 0 <= i < |t| && t[i].key.district == d
  {
    var ds := DistrictsOf(t);
    forall i | 0 <= i < |results|
      ensures results[i].district == ds[i]
    {
      HistoryNonEmpty(t, ds[i]);
      AssessmentIsLatest(History(t, ds[i]), IsAnomaly(classify, Latest(History(t, ds[i])).counts),
                         ForecastOf(t, ds[i], forecast).value);
    }
  }

  /** Each saved assessment carries the date and counts of its district's
      latest-dated row, its level is Low exactly when the classifier did not
      flag that row, and its score lies in [0, 10] tenths. */
  lemma SavedRow(t: seq<Row>, classify: Counts -> int, forecast: seq<(Day, nat)> -> Option<real>, results: seq<Assessment>, i: int)
    requires SavedFor(t, classify, forecast, results)
    requires 0 <= i < |results|
    ensures var a := results[i];
      && Row(Key(a.district, a.day), a.counts) in t
      && (forall r :: r in t && r.key.district == a.district ==> r.key.day <= a.day)
      && (a.alertLevel == Low <==> !IsAnomaly(classify, a.counts))
      && 0 <= a.scoreTenths <= 10
  {
    var d := DistrictsOf(t)[i];
    HistoryNonEmpty(t, d);
    var h := History(t, d);
    var anomalous := IsAnomaly(classify, Latest(h).counts);
    var fc := ForecastOf(t, d, forecast).value;
    AssessmentIsLatest(h, anomalous, fc);
    AnomalyDecides(h, anomalous, fc);
    ScoreBounds(h, anomalous, fc);
    assert Latest(h) in h;
  }

  /** `main`: aggregation runs before the model guard, so an unparseable
      timestamp fails the run even without a model file. */
  method RunPrediction(modelPresent: bool, hs: seq<HospitalVisit>, ps: seq<PharmacySale>, ss: seq<SocialPost>,
                       classify: Counts -> int, forecast: seq<(Day, nat)> -> Option<real>)
    returns (r: Outcome)
    ensures !AllParsed(hs, ps, ss) ==> r == Failed
    ensures r.ModelMissing? <==> AllParsed(hs, ps, ss) && !modelPresent
    ensures r.Saved? <==>
      (AllParsed(hs, ps, ss) && modelPresent &&
       forall i :: 0 <= i < |DistrictsOf(SparseTable(hs, ps, ss))| ==>
         ForecastOf(SparseTable(hs, ps, ss), DistrictsOf(SparseTable(hs, ps, ss))[i], forecast).Some?)
    ensures r.Saved? ==> SavedFor(SparseTable(hs, ps, ss), classify, forecast, r.results)
  {
    var agg := AggregateSparse(hs, ps, ss);
    if agg.Err? {
      return Failed;
    }
    r := PredictAndSave(modelPresent, agg.value, classify, forecast);
  }

  /** A row of the stored result set; the explanation is not among the stored columns. */
  datatype SummaryRow = SummaryRow(district: string, day: Day, counts: Counts, scoreTenths: int, alertLevel: AlertLevel)

  function Summary(a: Assessment): SummaryRow {
    SummaryRow(a.district, a.day, a.counts, a.scoreTenths, a.alertLevel)
  }

  /** The stored result set after a run: a saved run replaces the whole prior
      set; a run without a model or one that failed leaves it as it was. */
  function StoredAfter(prior: seq<SummaryRow>, r: Outcome): (s: seq<SummaryRow>)
    ensures r.Saved? ==> |s| == |r.results| && forall i :: 0 <= i < |s| ==> s[i] == Summary(r.results[i])
    ensures !r.Saved? ==> s == prior
  {
    if r.Saved? then seq(|r.results|, i requires 0 <= i < |r.results| => Summary(r.results[i])) else prior
  }
}
