/** Sparse district-day aggregation: per-source group-by, outer merge with
    zero fill, one row per key seen in at least one stream. */
module Aggregate {
  import opened Wrappers
  import opened Sequences
  import opened Features
  import opened Records

  /** Why an aggregation run aborts. */
  datatype AggError =
    | UnparseableTimestamp  // a timestamp did not parse to a date
    | NoObservations        // the dense grid has no date range to span

  /** The keys of the parsed entries of one stream, one per record. */
  function EntryKeys(es: seq<Entry>): seq<Key>
    requires forall i :: 0 <= i < |es| ==> es[i].day.Some?
  {
    seq(|es|, i requires 0 <= i < |es| => Key(es[i].district, es[i].day.value))
  }

  /** The keys of the hospital, pharmacy and social group-bys, concatenated. */
  function ObservedKeys(hs: seq<HospitalVisit>, ps: seq<PharmacySale>, ss: seq<SocialPost>): seq<Key>
    requires AllParsed(hs, ps, ss)
  {
    EntryKeys(HospitalEntries(hs)) + EntryKeys(PharmaEntries(ps)) + EntryKeys(PostEntries(ss))
  }

  /** The row the outer merge of the three group-bys gives key k: each group-by
      contributes its columns where it has a row for k, and 0 (the fill) elsewhere. */
  function MergedCounts(hs: seq<HospitalVisit>, ps: seq<PharmacySale>, ss: seq<SocialPost>, k: Key): Counts
    requires AllParsed(hs, ps, ss)
  {
    var inHospital := k in EntryKeys(HospitalEntries(hs));
    var inPharma := k in EntryKeys(PharmaEntries(ps));
    var inSocial := k in EntryKeys(PostEntries(ss));
    Counts(
      if inHospital then Weighed(HospitalEntries(hs), k) else 0,
      if inHospital then Weighed(SevereEntries(hs), k) else 0,
      if inPharma then Weighed(PharmaEntries(ps), k) else 0,
      if inSocial then Weighed(PostEntries(ss), k) else 0,
      if inSocial then Weighed(NegativeEntries(ss), k) else 0)
  }

  /** The merged feature table: one row per distinct observed key. */
  function SparseTable(hs: seq<HospitalVisit>, ps: seq<PharmacySale>, ss: seq<SocialPost>): seq<Row>
    requires AllParsed(hs, ps, ss)
  {
    var ks := Unique(ObservedKeys(hs, ps, ss));
    seq(|ks|, i requires 0 <= i < |ks| => Row(ks[i], MergedCounts(hs, ps, ss, ks[i])))
  }

  /** Inference-time aggregation: an unparseable timestamp aborts the whole
      aggregation instead of being dropped. */
  function AggregateSparse(hs: seq<HospitalVisit>, ps: seq<PharmacySale>, ss: seq<SocialPost>): (r: Result<seq<Row>, AggError>)
    ensures r.Ok? <==> AllParsed(hs, ps, ss)
    ensures r.Err? ==> r.error == UnparseableTimestamp
  {
    if AllParsed(hs, ps, ss) then Ok(SparseTable(hs, ps, ss)) else Err(UnparseableTimestamp)
  }

  // ---------- Properties ----------

  /** A key is among a stream's group-by keys exactly when a record of that stream falls on it. */
  lemma GroupKeysAreSeen(hs: seq<HospitalVisit>, ps: seq<PharmacySale>, ss: seq<SocialPost>, k: Key)
    requires AllParsed(hs, ps, ss)
    ensures k in EntryKeys(HospitalEntries(hs)) <==> HospitalSeen(hs, k)
    ensures k in EntryKeys(PharmaEntries(ps)) <==> PharmaSeen(ps, k)
    ensures k in EntryKeys(PostEntries(ss)) <==> SocialSeen(ss, k)
    ensures k in ObservedKeys(hs, ps, ss) <==> Observed(hs, ps, ss, k)
  {
    if HospitalSeen(hs, k) {
      var i :| 0 <= i < |hs| && hs[i].district == k.district && hs[i].visitDate == Some(k.day);
      assert EntryKeys(HospitalEntries(hs))[i] == k;
    }
    if PharmaSeen(ps, k) {
      var i :| 0 <= i < |ps| && ps[i].district == k.district && ps[i].saleDate == Some(k.day);
      assert EntryKeys(PharmaEntries(ps))[i] == k;
    }
    if SocialSeen(ss, k) {
      var i :| 0 <= i < |ss| && ss[i].district == k.district && ss[i].timeStamp == Some(k.day);
      assert EntryKeys(PostEntries(ss))[i] == k;
    }
  }

  /** The zero fill of the outer merge agrees with counting: a stream with no
      row for k would have counted 0 there. */
  lemma MergedIsCounted(hs: seq<HospitalVisit>, ps: seq<PharmacySale>, ss: seq<SocialPost>, k: Key)
    requires AllParsed(hs, ps, ss)
    ensures MergedCounts(hs, ps, ss, k) == CountsAt(hs, ps, ss, k)
  {
    GroupKeysAreSeen(hs, ps, ss, k);
    UnseenIsZero(hs, ps, ss, k);
  }

  /** Exactly one row per key present in at least one stream. */
  lemma SparseKeys(hs: seq<HospitalVisit>, ps: seq<PharmacySale>, ss: seq<SocialPost>)
    requires AllParsed(hs, ps, ss)
    ensures UniqueKeys(SparseTable(hs, ps, ss))
    ensures forall k :: k in KeysOf(SparseTable(hs, ps, ss)) <==> Observed(hs, ps, ss, k)
  {
    var t := SparseTable(hs, ps, ss);
    var ks := Unique(ObservedKeys(hs, ps, ss));
    assert KeysOf(t) == ks;
    forall k ensures k in ks <==> Observed(hs, ps, ss, k) {
      GroupKeysAreSeen(hs, ps, ss, k);
    }
  }

  /** Every row holds the counting rules' vector for its key; sub-counts never
      exceed their totals; a stream with no record on the key leaves its columns 0. */
  lemma SparseCounts(hs: seq<HospitalVisit>, ps: seq<PharmacySale>, ss: seq<SocialPost>)
    requires AllParsed(hs, ps, ss)
    ensures forall r :: r in SparseTable(hs, ps, ss) ==>
      && r.counts == CountsAt(hs, ps, ss, r.key)
      && r.counts.severeCaseCount <= r.counts.hospitalCaseCount
      && r.counts.negativePostsCount <= r.counts.socialPostsCount
      && (!HospitalSeen(hs, r.key) ==> r.counts.hospitalCaseCount == 0 && r.counts.severeCaseCount == 0)
      && (!PharmaSeen(ps, r.key) ==> r.counts.pharmaSalesCount == 0)
      && (!SocialSeen(ss, r.key) ==> r.counts.socialPostsCount == 0 && r.counts.negativePostsCount == 0)
  {
    forall r | r in SparseTable(hs, ps, ss)
      ensures r.counts == CountsAt(hs, ps, ss, r.key)
      ensures r.counts.severeCaseCount <= r.counts.hospitalCaseCount
      ensures r.counts.negativePostsCount <= r.counts.socialPostsCount
      ensures !HospitalSeen(hs, r.key) ==> r.counts.hospitalCaseCount == 0 && r.counts.severeCaseCount == 0
      ensures !PharmaSeen(ps, r.key) ==> r.counts.pharmaSalesCount == 0
      ensures !SocialSeen(ss, r.key) ==> r.counts.socialPostsCount == 0 && r.counts.negativePostsCount == 0
    {
      MergedIsCounted(hs, ps, ss, r.key);
      SubCountsBounded(hs, ps, ss, r.key);
      UnseenIsZero(hs, ps, ss, r.key);
    }
  }

  /** Conservation: each column summed over the table equals its total over the records. */
  lemma SparseConservation(hs: seq<HospitalVisit>, ps: seq<PharmacySale>, ss: seq<SocialPost>)
    requires AllParsed(hs, ps, ss)
    ensures ColumnTotal(SparseTable(hs, ps, ss), HospitalCases) == |hs|
    ensures ColumnTotal(SparseTable(hs, ps, ss), SevereCases) == SevereVisits(hs)
    ensures ColumnTotal(SparseTable(hs, ps, ss), PharmaSales) == UnitsSold(ps)
    ensures ColumnTotal(SparseTable(hs, ps, ss), SocialPosts) == |ss|
    ensures ColumnTotal(SparseTable(hs, ps, ss), NegativePosts) == NegativePostTotal(ss)
  {
    var t := SparseTable(hs, ps, ss);
    SparseKeys(hs, ps, ss);
    SparseCounts(hs, ps, ss);
    forall i | 0 <= i < |t| ensures t[i].counts == CountsAt(hs, ps, ss, t[i].key) {
      assert t[i] in t;
    }
    ColumnTotalsOfRecords(t, hs, ps, ss);
  }

  /** The table is empty exactly when every stream is. */
  lemma SparseEmpty(hs: seq<HospitalVisit>, ps: seq<PharmacySale>, ss: seq<SocialPost>)
    requires AllParsed(hs, ps, ss)
    ensures |SparseTable(hs, ps, ss)| == 0 <==> |hs| + |ps| + |ss| == 0
  {
    var os := ObservedKeys(hs, ps, ss);
    assert |os| == |hs| + |ps| + |ss|;
    if |os| > 0 {
      assert os[0] in os;
    }
  }
}
