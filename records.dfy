/** The three raw record streams, the counting rules that turn them into
    district-day counts, and the conservation of every count. */
module Records {
  import opened Wrappers
  import opened Sequences
  import opened Features

  /** A raw timestamp after date parsing: the calendar day it falls on, or
      None when it is missing or the parser rejects it. */
  type Stamp = Option<Day>

  datatype HospitalVisit = HospitalVisit(patientId: string, district: string, severity: string, visitDate: Stamp)

  datatype PharmacySale = PharmacySale(pharmacyId: string, district: string, qtySold: nat, saleDate: Stamp)

  datatype SocialPost = SocialPost(postId: string, district: string, sentiment: string, timeStamp: Stamp)

  /** Every timestamp of every stream parses to a day. */
  predicate AllParsed(hs: seq<HospitalVisit>, ps: seq<PharmacySale>, ss: seq<SocialPost>) {
    && (forall i :: 0 <= i < |hs| ==> hs[i].visitDate.Some?)
    && (forall i :: 0 <= i < |ps| ==> ps[i].saleDate.Some?)
    && (forall i :: 0 <= i < |ss| ==> ss[i].timeStamp.Some?)
  }

  predicate HospitalSeen(hs: seq<HospitalVisit>, k: Key) {
    exists i :: 0 <= i < |hs| && hs[i].district == k.district && hs[i].visitDate == Some(k.day)
  }

  predicate PharmaSeen(ps: seq<PharmacySale>, k: Key) {
    exists i :: 0 <= i < |ps| && ps[i].district == k.district && ps[i].saleDate == Some(k.day)
  }

  predicate SocialSeen(ss: seq<SocialPost>, k: Key) {
    exists i :: 0 <= i < |ss| && ss[i].district == k.district && ss[i].timeStamp == Some(k.day)
  }

  /** Some record of some stream falls on key k. */
  predicate Observed(hs: seq<HospitalVisit>, ps: seq<PharmacySale>, ss: seq<SocialPost>, k: Key) {
    HospitalSeen(hs, k) || PharmaSeen(ps, k) || SocialSeen(ss, k)
  }

  // ---------- One record's contribution to one column ----------

  /** What one record adds to one count column, under its district and day. */
  datatype Entry = Entry(district: string, day: Stamp, weight: nat)

  predicate Matches(e: Entry, k: Key) {
    e.district == k.district && e.day == Some(k.day)
  }

  /** The column value at key k: the summed weight of the entries that fall on k. */
  function Weighed(es: seq<Entry>, k: Key): nat {
    if es == [] then 0
    else (if Matches(es[0], k) then es[0].weight else 0) + Weighed(es[1..], k)
  }

  /** The summed weight of all entries. */
  function TotalWeight(es: seq<Entry>): nat {
    if es == [] then 0 else es[0].weight + TotalWeight(es[1..])
  }

  /** hospitalCaseCount: every visit counts once. */
  function HospitalEntries(hs: seq<HospitalVisit>): seq<Entry> {
    seq(|hs|, i requires 0 <= i < |hs| => Entry(hs[i].district, hs[i].visitDate, 1))
  }

  /** severeCaseCount: a visit counts when its severity is "High". */
  function SevereEntries(hs: seq<HospitalVisit>): seq<Entry> {
    seq(|hs|, i requires 0 <= i < |hs| =>
      Entry(hs[i].district, hs[i].visitDate, if hs[i].severity == "High" then 1 else 0))
  }

  /** pharmaSalesCount: a sale adds its qtySold. */
  function PharmaEntries(ps: seq<PharmacySale>): seq<Entry> {
    seq(|ps|, i requires 0 <= i < |ps| => Entry(ps[i].district, ps[i].saleDate, ps[i].qtySold))
  }

  /** socialPostsCount: every post counts once. */
  function PostEntries(ss: seq<SocialPost>): seq<Entry> {
    seq(|ss|, i requires 0 <= i < |ss| => Entry(ss[i].district, ss[i].timeStamp, 1))
  }

  /** negativePostsCount: a post counts when its sentiment is "Negative". */
  function NegativeEntries(ss: seq<SocialPost>): seq<Entry> {
    seq(|ss|, i requires 0 <= i < |ss| =>
      Entry(ss[i].district, ss[i].timeStamp, if ss[i].sentiment == "Negative" then 1 else 0))
  }

  function Entries(c: Column, hs: seq<HospitalVisit>, ps: seq<PharmacySale>, ss: seq<SocialPost>): seq<Entry> {
    match c
    case HospitalCases => HospitalEntries(hs)
    case SevereCases => SevereEntries(hs)
    case PharmaSales => PharmaEntries(ps)
    case SocialPosts => PostEntries(ss)
    case NegativePosts => NegativeEntries(ss)
  }

  /** The feature vector the counting rules give key k. */
  function CountsAt(hs: seq<HospitalVisit>, ps: seq<PharmacySale>, ss: seq<SocialPost>, k: Key): (v: Counts)
    ensures forall c :: v.Get(c) == Weighed(Entries(c, hs, ps, ss), k)
  {
    Counts(
      Weighed(HospitalEntries(hs), k),
      Weighed(SevereEntries(hs), k),
      Weighed(PharmaEntries(ps), k),
      Weighed(PostEntries(ss), k),
      Weighed(NegativeEntries(ss), k))
  }

  // ---------- Per-key facts ----------

  /** No entry falls on k, so the column is 0 there. */
  lemma {:induction false} WeighedUnmatched(es: seq<Entry>, k: Key)
    requires forall i :: 0 <= i < |es| ==> !Matches(es[i], k)
    ensures Weighed(es, k) == 0
  {
    if es != [] {
      assert forall i :: 0 <= i < |es[1..]| ==> es[1..][i] == es[i + 1];
      WeighedUnmatched(es[1..], k);
    }
  }

  /** Lighter entries under the same keys give a smaller or equal column value. */
  lemma {:induction false} WeighedPointwise(a: seq<Entry>, b: seq<Entry>, k: Key)
    requires |a| == |b|
    requires forall i :: 0 <= i < |a| ==> a[i].district == b[i].district && a[i].day == b[i].day && a[i].weight <= b[i].weight
    ensures Weighed(a, k) <= Weighed(b, k)
  {
    if a != [] {
      assert forall i :: 0 <= i < |a[1..]| ==> a[1..][i] == a[i + 1] && b[1..][i] == b[i + 1];
      WeighedPointwise(a[1..], b[1..], k);
    }
  }

  /** severeCaseCount <= hospitalCaseCount and negativePostsCount <= socialPostsCount at every key. */
  lemma SubCountsBounded(hs: seq<HospitalVisit>, ps: seq<PharmacySale>, ss: seq<SocialPost>, k: Key)
    ensures CountsAt(hs, ps, ss, k).severeCaseCount <= CountsAt(hs, ps, ss, k).hospitalCaseCount
    ensures CountsAt(hs, ps, ss, k).negativePostsCount <= CountsAt(hs, ps, ss, k).socialPostsCount
  {
    WeighedPointwise(SevereEntries(hs), HospitalEntries(hs), k);
    WeighedPointwise(NegativeEntries(ss), PostEntries(ss), k);
  }

  /** A stream with no record on k contributes 0 to its columns there. */
  lemma UnseenIsZero(hs: seq<HospitalVisit>, ps: seq<PharmacySale>, ss: seq<SocialPost>, k: Key)
    ensures !HospitalSeen(hs, k) ==> CountsAt(hs, ps, ss, k).hospitalCaseCount == 0 && CountsAt(hs, ps, ss, k).severeCaseCount == 0
    ensures !PharmaSeen(ps, k) ==> CountsAt(hs, ps, ss, k).pharmaSalesCount == 0
    ensures !SocialSeen(ss, k) ==> CountsAt(hs, ps, ss, k).socialPostsCount == 0 && CountsAt(hs, ps, ss, k).negativePostsCount == 0
  {
    if !HospitalSeen(hs, k) {
      WeighedUnmatched(HospitalEntries(hs), k);
      WeighedUnmatched(SevereEntries(hs), k);
    }
    if !PharmaSeen(ps, k) {
      WeighedUnmatched(PharmaEntries(ps), k);
    }
    if !SocialSeen(ss, k) {
      WeighedUnmatched(PostEntries(ss), k);
      WeighedUnmatched(NegativeEntries(ss), k);
    }
  }

  /** A key no record falls on has the all-zero vector. */
  lemma UnobservedIsZero(hs: seq<HospitalVisit>, ps: seq<PharmacySale>, ss: seq<SocialPost>, k: Key)
    requires !Observed(hs, ps, ss, k)
    ensures CountsAt(hs, ps, ss, k) == NoActivity
  {
    UnseenIsZero(hs, ps, ss, k);
  }

  // ---------- Conservation ----------

  /** The column values at the keys of ks, summed. */
  function SumWeighed(es: seq<Entry>, ks: seq<Key>): nat {
    if ks == [] then 0 else Weighed(es, ks[0]) + SumWeighed(es, ks[1..])
  }

  /** What a single entry contributes to SumWeighed over ks. */
  function Hits(e: Entry, ks: seq<Key>): nat {
    if ks == [] then 0 else (if Matches(e, ks[0]) then e.weight else 0) + Hits(e, ks[1..])
  }

  lemma {:induction false} HitsAbsent(e: Entry, ks: seq<Key>)
    requires forall i :: 0 <= i < |ks| ==> !Matches(e, ks[i])
    ensures Hits(e, ks) == 0
  {
    if ks != [] {
      assert forall i :: 0 <= i < |ks[1..]| ==> ks[1..][i] == ks[i + 1];
      HitsAbsent(e, ks[1..]);
    }
  }

  /** An entry whose key occurs exactly once in ks is counted exactly once. */
  lemma {:induction false} HitsOnce(e: Entry, ks: seq<Key>)
    requires e.day.Some? && Key(e.district, e.day.value) in ks && Distinct(ks)
    ensures Hits(e, ks) == e.weight
  {
    var k := Key(e.district, e.day.value);
    if ks[0] == k {
      assert forall i :: 0 <= i < |ks[1..]| ==> ks[1..][i] == ks[i + 1] && ks[i + 1] != k;
      HitsAbsent(e, ks[1..]);
    } else {
      assert k in ks[1..];
      HitsOnce(e, ks[1..]);
    }
  }

  lemma {:induction false} SumWeighedSplit(es: seq<Entry>, ks: seq<Key>)
    requires es != []
    ensures SumWeighed(es, ks) == Hits(es[0], ks) + SumWeighed(es[1..], ks)
  {
    if ks != [] {
      SumWeighedSplit(es, ks[1..]);
    }
  }

  lemma {:induction false} SumWeighedNone(ks: seq<Key>)
    ensures SumWeighed([], ks) == 0
  {
    if ks != [] {
      SumWeighedNone(ks[1..]);
    }
  }

  /** Conservation: summing a column over a duplicate-free list of keys that
      holds every entry's key gives the total weight of the entries. */
  lemma {:induction false} Conservation(es: seq<Entry>, ks: seq<Key>)
    requires Distinct(ks)
    requires forall i :: 0 <= i < |es| ==> es[i].day.Some? && Key(es[i].district, es[i].day.value) in ks
    ensures SumWeighed(es, ks) == TotalWeight(es)
  {
    if es == [] {
      SumWeighedNone(ks);
    } else {
      assert forall i :: 0 <= i < |es[1..]| ==> es[1..][i] == es[i + 1];
      Conservation(es[1..], ks);
      SumWeighedSplit(es, ks);
      HitsOnce(es[0], ks);
    }
  }

  /** A table whose every row holds the counting rules' vector for its key sums,
      column by column, to SumWeighed over its keys. */
  lemma {:induction false} TableSum(t: seq<Row>, hs: seq<HospitalVisit>, ps: seq<PharmacySale>, ss: seq<SocialPost>, c: Column)
    requires forall i :: 0 <= i < |t| ==> t[i].counts == CountsAt(hs, ps, ss, t[i].key)
    ensures ColumnTotal(t, c) == SumWeighed(Entries(c, hs, ps, ss), KeysOf(t))
  {
    if t != [] {
      assert KeysOf(t)[1..] == KeysOf(t[1..]);
      assert forall i :: 0 <= i < |t[1..]| ==> t[1..][i] == t[i + 1];
      TableSum(t[1..], hs, ps, ss, c);
    }
  }

  /** Every key some record falls on is among the keys of t. */
  ghost predicate CoversObserved(t: seq<Row>, hs: seq<HospitalVisit>, ps: seq<PharmacySale>, ss: seq<SocialPost>) {
    forall k :: Observed(hs, ps, ss, k) ==> k in KeysOf(t)
  }

  /** A table with one row per key, covering every record, holding the counting
      rules' vector in each row, has the entries' total weight as each column sum. */
  lemma TableConservation(t: seq<Row>, hs: seq<HospitalVisit>, ps: seq<PharmacySale>, ss: seq<SocialPost>, c: Column)
    requires AllParsed(hs, ps, ss)
    requires UniqueKeys(t) && CoversObserved(t, hs, ps, ss)
    requires forall i :: 0 <= i < |t| ==> t[i].counts == CountsAt(hs, ps, ss, t[i].key)
    ensures ColumnTotal(t, c) == TotalWeight(Entries(c, hs, ps, ss))
  {
    var es := Entries(c, hs, ps, ss);
    forall i | 0 <= i < |es| ensures es[i].day.Some? && Key(es[i].district, es[i].day.value) in KeysOf(t) {
      var k := Key(es[i].district, es[i].day.value);
      match c
      case HospitalCases => assert HospitalSeen(hs, k);
      case SevereCases => assert HospitalSeen(hs, k);
      case PharmaSales => assert PharmaSeen(ps, k);
      case SocialPosts => assert SocialSeen(ss, k);
      case NegativePosts => assert SocialSeen(ss, k);
    }
    TableSum(t, hs, ps, ss, c);
    Conservation(es, KeysOf(t));
  }

  // ---------- The totals of each column, in terms of the records ----------

  /** The number of visits with severity "High". */
  function SevereVisits(hs: seq<HospitalVisit>): nat {
    if hs == [] then 0 else (if hs[0].severity == "High" then 1 else 0) + SevereVisits(hs[1..])
  }

  /** The summed qtySold of all sales. */
  function UnitsSold(ps: seq<PharmacySale>): nat {
    if ps == [] then 0 else ps[0].qtySold + UnitsSold(ps[1..])
  }

  /** The number of posts with sentiment "Negative". */
  function NegativePostTotal(ss: seq<SocialPost>): nat {
    if ss == [] then 0 else (if ss[0].sentiment == "Negative" then 1 else 0) + NegativePostTotal(ss[1..])
  }

  lemma {:induction false} HospitalTotals(hs: seq<HospitalVisit>)
    ensures TotalWeight(HospitalEntries(hs)) == |hs|
    ensures TotalWeight(SevereEntries(hs)) == SevereVisits(hs)
  {
    if hs != [] {
      assert HospitalEntries(hs)[1..] == HospitalEntries(hs[1..]);
      assert SevereEntries(hs)[1..] == SevereEntries(hs[1..]);
      HospitalTotals(hs[1..]);
    }
  }

  lemma {:induction false} PharmaTotals(ps: seq<PharmacySale>)
    ensures TotalWeight(PharmaEntries(ps)) == UnitsSold(ps)
  {
    if ps != [] {
      assert PharmaEntries(ps)[1..] == PharmaEntries(ps[1..]);
      PharmaTotals(ps[1..]);
    }
  }

  lemma {:induction false} SocialTotals(ss: seq<SocialPost>)
    ensures TotalWeight(PostEntries(ss)) == |ss|
    ensures TotalWeight(NegativeEntries(ss)) == NegativePostTotal(ss)
  {
    if ss != [] {
      assert PostEntries(ss)[1..] == PostEntries(ss[1..]);
      assert NegativeEntries(ss)[1..] == NegativeEntries(ss[1..]);
      SocialTotals(ss[1..]);
    }
  }

  /** Conservation of all five columns for a table as in TableConservation. */
  lemma ColumnTotalsOfRecords(t: seq<Row>, hs: seq<HospitalVisit>, ps: seq<PharmacySale>, ss: seq<SocialPost>)
    requires AllParsed(hs, ps, ss)
    requires UniqueKeys(t) && CoversObserved(t, hs, ps, ss)
    requires forall i :: 0 <= i < |t| ==> t[i].counts == CountsAt(hs, ps, ss, t[i].key)
    ensures ColumnTotal(t, HospitalCases) == |hs|
    ensures ColumnTotal(t, SevereCases) == SevereVisits(hs)
    ensures ColumnTotal(t, PharmaSales) == UnitsSold(ps)
    ensures ColumnTotal(t, SocialPosts) == |ss|
    ensures ColumnTotal(t, NegativePosts) == NegativePostTotal(ss)
  {
    HospitalTotals(hs);
    PharmaTotals(ps);
    SocialTotals(ss);
    TableConservation(t, hs, ps, ss, HospitalCases);
    TableConservation(t, hs, ps, ss, SevereCases);
    TableConservation(t, hs, ps, ss, PharmaSales);
    TableConservation(t, hs, ps, ss, SocialPosts);
    TableConservation(t, hs, ps, ss, NegativePosts);
  }
}
