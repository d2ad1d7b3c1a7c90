/** The training script's decisions: which files must exist, and when the
    anomaly model is fitted on the dense feature table. */
module Train {
  import opened Features
  import opened Records
  import opened Aggregate
  import opened Grid

  /** How a training run ends. */
  datatype TrainOutcome =
    | HospitalDataMissing          // the hospital CSV is absent: nothing is read
    | DataNotFound                 // another CSV is absent: aggregation returns None
    | Crashed(error: AggError)     // aggregation raised
    | ModelKept                    // a model file exists: training is skipped
    | Trained(features: seq<Row>)  // the model is fitted on this table

  function TrainMain(hospitalCsv: bool, pharmaCsv: bool, socialCsv: bool, modelFile: bool,
                     hs: seq<HospitalVisit>, ps: seq<PharmacySale>, ss: seq<SocialPost>): (r: TrainOutcome)
    ensures !hospitalCsv ==> r == HospitalDataMissing
    ensures hospitalCsv && !(pharmaCsv && socialCsv) ==> r == DataNotFound
    ensures r.Trained? <==>
      hospitalCsv && pharmaCsv && socialCsv && !modelFile && AggregateDense(hs, ps, ss).Ok?
    ensures r.Trained? ==> r.features == AggregateDense(hs, ps, ss).value
    ensures hospitalCsv && pharmaCsv && socialCsv && AggregateDense(hs, ps, ss).Err? ==>
      r == Crashed(AggregateDense(hs, ps, ss).error)
    ensures hospitalCsv && pharmaCsv && socialCsv && AggregateDense(hs, ps, ss).Ok? && modelFile ==>
      r == ModelKept
    ensures r.Crashed? ==> !AllParsed(hs, ps, ss) || |hs| + |ps| + |ss| == 0
  {
    if !hospitalCsv then HospitalDataMissing
    else if !(pharmaCsv && socialCsv) then DataNotFound
    else
      match AggregateDense(hs, ps, ss)
      case Err(e) => Crashed(e)
      case Ok(table) => if modelFile then ModelKept else Trained(table)
  }
}
