/** Training-time aggregation: the sparse table reindexed onto every calendar
    day from the first to the last observed date, crossed with every observed
    district, zero-filled. */
module Grid {
  import opened Wrappers
  import opened Sequences
  import opened Features
  import opened Records
  import opened Aggregate

  /** Every calendar day from lo to hi inclusive (`pd.date_range(start, end)`). */
  function DateRange(lo: Day, hi: Day): (days: seq<Day>)
    requires lo <= hi
    ensures |days| == hi - lo + 1
    ensures forall i :: 0 <= i < |days| ==> days[i] == lo + i
  {
    seq(hi - lo + 1, i requires 0 <= i < hi - lo + 1 => lo + i)
  }

  lemma DateRangeSpan(lo: Day, hi: Day)
    requires lo <= hi
    ensures Distinct(DateRange(lo, hi))
    ensures forall d :: d in DateRange(lo, hi) <==> lo <= d <= hi
  {
    var days := DateRange(lo, hi);
    forall d | lo <= d <= hi ensures d in days {
      assert days[d - lo] == d;
    }
  }

  /** The keys of one day, one per district in order. */
  function DayKeys(day: Day, ds: seq<string>): (ks: seq<Key>)
    ensures |ks| == |ds|
    ensures forall k :: k in ks <==> k.day == day && k.district in ds
  {
    var ks := seq(|ds|, j requires 0 <= j < |ds| => Key(ds[j], day));
    assert forall j :: 0 <= j < |ds| ==> ks[j] == Key(ds[j], day);
    ks
  }

  /** The day-major cross product of days and districts (`MultiIndex.from_product`). */
  function Product(days: seq<Day>, ds: seq<string>): (ks: seq<Key>)
    ensures |ks| == |days| * |ds|
    ensures forall k :: k in ks <==> k.day in days && k.district in ds
  {
    if days == [] then []
    else
      var rest := Product(days[1..], ds);
      assert |rest| == (|days| - 1) * |ds|;
      assert |ds| + |rest| == |days| * |ds|;
      assert days == [days[0]] + days[1..];
      DayKeys(days[0], ds) + rest
  }

  lemma {:induction false} ProductDistinct(days: seq<Day>, ds: seq<string>)
    requires Distinct(days) && Distinct(ds)
    ensures Distinct(Product(days, ds))
  {
    if days != [] {
      var block := DayKeys(days[0], ds);
      assert Distinct(days[1..]) by {
        forall i, j | 0 <= i < j < |days[1..]| ensures days[1..][i] != days[1..][j] {
          assert days[1..][i] == days[i + 1] && days[1..][j] == days[j + 1];
        }
      }
      ProductDistinct(days[1..], ds);
      assert days[0] !in days[1..];
      DistinctConcat(block, Product(days[1..], ds));
    }
  }

  /** The vector of the first row of t with key k, or the fill value when t has none
      (`reindex(..., fill_value=0)`). */
  function Lookup(t: seq<Row>, k: Key): (c: Counts)
    ensures k !in KeysOf(t) ==> c == NoActivity
    ensures k in KeysOf(t) ==> Row(k, c) in t
  {
    if t == [] then NoActivity
    else
      assert KeysOf(t) == [t[0].key] + KeysOf(t[1..]);
      if t[0].key == k then t[0].counts else Lookup(t[1..], k)
  }

  /** One row per key of keys, carrying t's vector or the fill value. */
  function Reindex(t: seq<Row>, keys: seq<Key>): seq<Row> {
    seq(|keys|, i requires 0 <= i < |keys| => Row(keys[i], Lookup(t, keys[i])))
  }

  /** The earliest day in t (`merged_df['date'].min()`). */
  function FirstDay(t: seq<Row>): (d: Day)
    requires |t| > 0
    ensures exists i :: 0 <= i < |t| && t[i].key.day == d
    ensures forall i :: 0 <= i < |t| ==> d <= t[i].key.day
  {
    if |t| == 1 then t[0].key.day
    else
      var m := FirstDay(t[1..]);
      assert forall i :: 1 <= i < |t| ==> t[i] == t[1..][i - 1];
      if t[0].key.day <= m then t[0].key.day else m
  }

  /** The latest day in t (`merged_df['date'].max()`). */
  function LastDay(t: seq<Row>): (d: Day)
    requires |t| > 0
    ensures exists i :: 0 <= i < |t| && t[i].key.day == d
    ensures forall i :: 0 <= i < |t| ==> t[i].key.day <= d
  {
    if |t| == 1 then t[0].key.day
    else
      var m := LastDay(t[1..]);
      assert forall i :: 1 <= i < |t| ==> t[i] == t[1..][i - 1];
      if t[0].key.day >= m then t[0].key.day else m
  }

  /** The grid keys of a non-empty merged table. */
  function GridKeys(t: seq<Row>): seq<Key>
    requires |t| > 0
  {
    Product(DateRange(FirstDay(t), LastDay(t)), DistrictsOf(t))
  }

  /** The dense training table. */
  function DenseTable(hs: seq<HospitalVisit>, ps: seq<PharmacySale>, ss: seq<SocialPost>): seq<Row>
    requires AllParsed(hs, ps, ss) && |hs| + |ps| + |ss| > 0
  {
    SparseEmpty(hs, ps, ss);
    var merged := SparseTable(hs, ps, ss);
    Reindex(merged, GridKeys(merged))
  }

  /** Training-time aggregation: an unparseable date aborts it, and so does an
      empty input, whose date range has no ends. */
  function AggregateDense(hs: seq<HospitalVisit>, ps: seq<PharmacySale>, ss: seq<SocialPost>): (r: Result<seq<Row>, AggError>)
    ensures r.Ok? <==> AllParsed(hs, ps, ss) && |hs| + |ps| + |ss| > 0
    ensures r.Err? ==> (r.error == UnparseableTimestamp <==> !AllParsed(hs, ps, ss))
  {
    if !AllParsed(hs, ps, ss) then Err(UnparseableTimestamp)
    else if |hs| + |ps| + |ss| == 0 then Err(NoObservations)
    else Ok(DenseTable(hs, ps, ss))
  }

  // ---------- Properties ----------

  lemma FirstNotAfterLast(t: seq<Row>)
    requires |t| > 0
    ensures FirstDay(t) <= LastDay(t)
  {
    var i :| 0 <= i < |t| && t[i].key.day == FirstDay(t);
  }

  /** The grid over the days lo..hi and the districts ds has (hi - lo + 1) x |ds| keys. */
  lemma ProductSize(lo: Day, hi: Day, ds: seq<string>)
    requires lo <= hi
    ensures |Product(DateRange(lo, hi), ds)| == (hi - lo + 1) * |ds|
  {
    assert |DateRange(lo, hi)| == hi - lo + 1;
  }

  /** A key is in the grid over lo..hi and ds exactly when its day is in range and its district in ds. */
  lemma ProductSpan(lo: Day, hi: Day, ds: seq<string>)
    requires lo <= hi
    ensures forall k :: k in Product(DateRange(lo, hi), ds) <==> lo <= k.day <= hi && k.district in ds
  {
    DateRangeSpan(lo, hi);
  }

  /** The grid of a non-empty table has (last - first + 1) x #districts keys. */
  lemma GridSize(t: seq<Row>)
    requires |t| > 0
    ensures |GridKeys(t)| == (LastDay(t) - FirstDay(t) + 1) * |DistrictsOf(t)|
  {
    var lo, hi, ds := FirstDay(t), LastDay(t), DistrictsOf(t);
    FirstNotAfterLast(t);
    ProductSize(lo, hi, ds);
    assert GridKeys(t) == Product(DateRange(lo, hi), ds);
  }

  /** No key occurs twice in the grid. */
  lemma GridDistinct(t: seq<Row>)
    requires |t| > 0
    ensures Distinct(GridKeys(t))
  {
    FirstNotAfterLast(t);
    DateRangeSpan(FirstDay(t), LastDay(t));
    ProductDistinct(DateRange(FirstDay(t), LastDay(t)), DistrictsOf(t));
  }

  /** The grid holds every day from the first to the last, with every district. */
  lemma GridSpan(t: seq<Row>)
    requires |t| > 0
    ensures forall k :: k in GridKeys(t) <==> FirstDay(t) <= k.day <= LastDay(t) && k.district in DistrictsOf(t)
  {
    FirstNotAfterLast(t);
    ProductSpan(FirstDay(t), LastDay(t), DistrictsOf(t));
  }

  lemma DenseIsGrid(hs: seq<HospitalVisit>, ps: seq<PharmacySale>, ss: seq<SocialPost>)
    requires AllParsed(hs, ps, ss) && |hs| + |ps| + |ss| > 0
    ensures |SparseTable(hs, ps, ss)| > 0
    ensures KeysOf(DenseTable(hs, ps, ss)) == GridKeys(SparseTable(hs, ps, ss))
    ensures |DenseTable(hs, ps, ss)| == |GridKeys(SparseTable(hs, ps, ss))|
  {
    SparseEmpty(hs, ps, ss);
  }

  /** Grid size: (last observed date - first observed date + 1) x #observed districts rows. */
  lemma DenseSize(hs: seq<HospitalVisit>, ps: seq<PharmacySale>, ss: seq<SocialPost>)
    requires AllParsed(hs, ps, ss) && |hs| + |ps| + |ss| > 0
    ensures |SparseTable(hs, ps, ss)| > 0
    ensures |DenseTable(hs, ps, ss)| ==
      (LastDay(SparseTable(hs, ps, ss)) - FirstDay(SparseTable(hs, ps, ss)) + 1) * |DistrictsOf(SparseTable(hs, ps, ss))|
  {
    var merged := SparseTable(hs, ps, ss);
    DenseIsGrid(hs, ps, ss);
    GridSize(merged);
    assert |DenseTable(hs, ps, ss)| == |GridKeys(merged)|;
  }

  /** Grid completeness: exactly one row per (day, district), day ranging over
      every calendar day from the first to the last observed date (days without
      records included) and district over every observed district. */
  lemma DenseSpan(hs: seq<HospitalVisit>, ps: seq<PharmacySale>, ss: seq<SocialPost>)
    requires AllParsed(hs, ps, ss) && |hs| + |ps| + |ss| > 0
    ensures |SparseTable(hs, ps, ss)| > 0
    ensures UniqueKeys(DenseTable(hs, ps, ss))
    ensures forall k :: k in KeysOf(DenseTable(hs, ps, ss)) <==>
      && FirstDay(SparseTable(hs, ps, ss)) <= k.day <= LastDay(SparseTable(hs, ps, ss))
      && k.district in DistrictsOf(SparseTable(hs, ps, ss))
  {
    DenseIsGrid(hs, ps, ss);
    GridDistinct(SparseTable(hs, ps, ss));
    GridSpan(SparseTable(hs, ps, ss));
  }

  /** Every row's key of a non-empty table is a grid key. */
  lemma RowInGrid(t: seq<Row>, i: int)
    requires 0 <= i < |t|
    ensures t[i].key in GridKeys(t)
  {
    GridSpan(t);
    assert t[i].key.district in DistrictsOf(t);
  }

  /** Every key some record falls on is a cell of the grid. */
  lemma DenseCoversObserved(hs: seq<HospitalVisit>, ps: seq<PharmacySale>, ss: seq<SocialPost>)
    requires AllParsed(hs, ps, ss) && |hs| + |ps| + |ss| > 0
    ensures CoversObserved(DenseTable(hs, ps, ss), hs, ps, ss)
  {
    DenseIsGrid(hs, ps, ss);
    var merged := SparseTable(hs, ps, ss);
    SparseKeys(hs, ps, ss);
    forall k | Observed(hs, ps, ss, k) ensures k in GridKeys(merged) {
      assert k in KeysOf(merged);
      var i :| 0 <= i < |merged| && merged[i].key == k;
      RowInGrid(merged, i);
    }
  }

  /** A grid cell whose key was observed keeps its merged counts; every other
      cell is all zeros; so every cell holds the counting rules' vector. */
  lemma DenseCells(hs: seq<HospitalVisit>, ps: seq<PharmacySale>, ss: seq<SocialPost>)
    requires AllParsed(hs, ps, ss) && |hs| + |ps| + |ss| > 0
    ensures forall r :: r in DenseTable(hs, ps, ss) ==>
      && (r.key in KeysOf(SparseTable(hs, ps, ss)) ==> r.counts == MergedCounts(hs, ps, ss, r.key))
      && (r.key !in KeysOf(SparseTable(hs, ps, ss)) ==> r.counts == NoActivity)
      && r.counts == CountsAt(hs, ps, ss, r.key)
  {
    var merged := SparseTable(hs, ps, ss);
    SparseKeys(hs, ps, ss);
    SparseCounts(hs, ps, ss);
    forall r | r in DenseTable(hs, ps, ss)
      ensures r.key in KeysOf(merged) ==> r.counts == MergedCounts(hs, ps, ss, r.key)
      ensures r.key !in KeysOf(merged) ==> r.counts == NoActivity
      ensures r.counts == CountsAt(hs, ps, ss, r.key)
    {
      MergedIsCounted(hs, ps, ss, r.key);
      if r.key !in KeysOf(merged) {
        UnobservedIsZero(hs, ps, ss, r.key);
      } else {
        assert Row(r.key, r.counts) in merged;
      }
    }
  }

  /** Conservation across the grid: reindexing adds only zero rows, so every
      column keeps its total, which is the records' total. */
  lemma DenseConservation(hs: seq<HospitalVisit>, ps: seq<PharmacySale>, ss: seq<SocialPost>)
    requires AllParsed(hs, ps, ss) && |hs| + |ps| + |ss| > 0
    ensures forall c :: ColumnTotal(DenseTable(hs, ps, ss), c) == ColumnTotal(SparseTable(hs, ps, ss), c)
    ensures ColumnTotal(DenseTable(hs, ps, ss), HospitalCases) == |hs|
    ensures ColumnTotal(DenseTable(hs, ps, ss), SevereCases) == SevereVisits(hs)
    ensures ColumnTotal(DenseTable(hs, ps, ss), PharmaSales) == UnitsSold(ps)
    ensures ColumnTotal(DenseTable(hs, ps, ss), SocialPosts) == |ss|
    ensures ColumnTotal(DenseTable(hs, ps, ss), NegativePosts) == NegativePostTotal(ss)
  {
    var dense := DenseTable(hs, ps, ss);
    DenseSpan(hs, ps, ss);
    DenseCoversObserved(hs, ps, ss);
    DenseCells(hs, ps, ss);
    forall i | 0 <= i < |dense| ensures dense[i].counts == CountsAt(hs, ps, ss, dense[i].key) {
      assert dense[i] in dense;
    }
    forall c ensures ColumnTotal(dense, c) == ColumnTotal(SparseTable(hs, ps, ss), c) {
      TableConservation(dense, hs, ps, ss, c);
      var t := SparseTable(hs, ps, ss);
      SparseKeys(hs, ps, ss);
      SparseCounts(hs, ps, ss);
      forall i | 0 <= i < |t| ensures t[i].counts == CountsAt(hs, ps, ss, t[i].key) {
        assert t[i] in t;
      }
      TableConservation(t, hs, ps, ss, c);
    }
    ColumnTotalsOfRecords(dense, hs, ps, ss);
  }
}
