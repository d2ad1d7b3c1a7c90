/** The district-day feature table: keys, the five counts, and column sums over rows. */
module Features {
  import opened Sequences

  /** A calendar date without time of day, numbered so that consecutive dates differ by one. */
  type Day = int

  /** The grouping key of the feature table: one district on one calendar day. */
  datatype Key = Key(district: string, day: Day)

  /** The five count columns of a feature vector. */
  datatype Column = HospitalCases | SevereCases | PharmaSales | SocialPosts | NegativePosts

  /** A district-day feature vector. */
  datatype Counts = Counts(
    hospitalCaseCount: nat,
    severeCaseCount: nat,
    pharmaSalesCount: nat,
    socialPostsCount: nat,
    negativePostsCount: nat)
  {
    function Get(c: Column): nat {
      match c
      case HospitalCases => hospitalCaseCount
      case SevereCases => severeCaseCount
      case PharmaSales => pharmaSalesCount
      case SocialPosts => socialPostsCount
      case NegativePosts => negativePostsCount
    }
  }

  /** The vector of a cell that no record fell into (the fill value 0 in every column). */
  const NoActivity := Counts(0, 0, 0, 0, 0)

  /** One row of a feature table. */
  datatype Row = Row(key: Key, counts: Counts)

  function KeysOf(t: seq<Row>): seq<Key> {
    seq(|t|, i requires 0 <= i < |t| => t[i].key)
  }

  /** At most one row per (district, day). */
  predicate UniqueKeys(t: seq<Row>) {
    Distinct(KeysOf(t))
  }

  /** The sum of column c over the rows of t. */
  function ColumnTotal(t: seq<Row>, c: Column): nat {
    if t == [] then 0 else t[0].counts.Get(c) + ColumnTotal(t[1..], c)
  }

  /** The districts of t, each once, in order of first appearance (`df["district"].unique()`). */
  function DistrictsOf(t: seq<Row>): (ds: seq<string>)
    ensures Distinct(ds)
    ensures forall d :: d in ds <==> exists i :: 0 <= i < |t| && t[i].key.district == d
  {
    var all := seq(|t|, i requires 0 <= i < |t| => t[i].key.district);
    assert forall i :: 0 <= i < |t| ==> all[i] == t[i].key.district;
    Unique(all)
  }
}
