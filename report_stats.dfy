/**
 * The review statistics of the daily report: feedback with a rating is "valid"; a rating of
 * 5 is positive, 3 or 4 neutral, below 3 negative; a 1..5 star histogram; and the rates
 * `count * 100 / total`, which are 0 when no feedback has a rating.
 */
module ReportStats {
  import opened Wrappers
  import opened StateBag

  /** A feedback row as the report reads it: optional rating, its formatted text, its creation instant. */
  datatype FeedbackRow = FeedbackRow(rating: Option<int>, formatted: string, createdAt: int)

  /** The ratings of the feedback whose rating is not null, in load order. */
  function ValidRatings(rows: seq<FeedbackRow>): (rs: seq<int>)
    ensures |rs| <= |rows|
  {
    if rows == [] then []
    else
      var rest := ValidRatings(rows[..|rows| - 1]);
      match rows[|rows| - 1].rating
      case Some(r) => rest + [r]
      case None => rest
  }

  /** Only ratings are dropped, never invented: every valid rating is some row's rating. */
  lemma {:induction false} ValidRatingsComeFromRows(rows: seq<FeedbackRow>, i: int)
    requires 0 <= i < |ValidRatings(rows)|
    ensures exists j :: 0 <= j < |rows| && rows[j].rating == Some(ValidRatings(rows)[i])
    decreases |rows|
  {
    var init := rows[..|rows| - 1];
    var rest := ValidRatings(init);
    if i < |rest| {
      ValidRatingsComeFromRows(init, i);
      var j :| 0 <= j < |init| && init[j].rating == Some(rest[i]);
      assert rows[j] == init[j];
    } else {
      assert rows[|rows| - 1].rating == Some(ValidRatings(rows)[i]);
    }
  }

  /** When every row has a rating, nothing is dropped. */
  lemma {:induction false} AllRatedKeepsAll(rows: seq<FeedbackRow>)
    requires forall j :: 0 <= j < |rows| ==> rows[j].rating.Some?
    ensures |ValidRatings(rows)| == |rows|
    decreases |rows|
  {
    if rows != [] {
      AllRatedKeepsAll(rows[..|rows| - 1]);
    }
  }

  predicate IsPositive(r: int) { r == 5 }
  predicate IsNeutral(r: int) { 3 <= r <= 4 }
  predicate IsNegative(r: int) { r < 3 }

  function Count(rs: seq<int>, p: int -> bool): (n: nat)
    ensures n <= |rs|
  {
    if rs == [] then 0
    else Count(rs[..|rs| - 1], p) + (if p(rs[|rs| - 1]) then 1 else 0)
  }

  /** The number of ratings equal to `star`: bucket `star - 1` of the histogram. */
  function CountStar(rs: seq<int>, star: int): (n: nat)
    ensures n <= |rs|
  {
    if rs == [] then 0
    else CountStar(rs[..|rs| - 1], star) + (if rs[|rs| - 1] == star then 1 else 0)
  }

  predicate InStarRange(rs: seq<int>) {
    forall i :: 0 <= i < |rs| ==> 1 <= rs[i] <= 5
  }

  /** The three classes never overlap, so together they count at most every rating, and with
      ratings in 1..5 they count each exactly once. */
  lemma {:induction false} SentimentPartition(rs: seq<int>)
    ensures Count(rs, IsPositive) + Count(rs, IsNeutral) + Count(rs, IsNegative) <= |rs|
    ensures InStarRange(rs) ==>
      Count(rs, IsPositive) + Count(rs, IsNeutral) + Count(rs, IsNegative) == |rs|
    decreases |rs|
  {
    if rs != [] {
      var init := rs[..|rs| - 1];
      SentimentPartition(init);
      if InStarRange(rs) {
        assert InStarRange(init) by {
          forall i | 0 <= i < |init| ensures 1 <= init[i] <= 5 {
            assert init[i] == rs[i];
          }
        }
      }
    }
  }

  /** Each sentiment class is a union of histogram buckets. */
  lemma {:induction false} SentimentFromHistogram(rs: seq<int>)
    ensures Count(rs, IsPositive) == CountStar(rs, 5)
    ensures Count(rs, IsNeutral) == CountStar(rs, 3) + CountStar(rs, 4)
    ensures InStarRange(rs) ==> Count(rs, IsNegative) == CountStar(rs, 1) + CountStar(rs, 2)
    decreases |rs|
  {
    if rs != [] {
      var init := rs[..|rs| - 1];
      SentimentFromHistogram(init);
      if InStarRange(rs) {
        assert InStarRange(init) by {
          forall i | 0 <= i < |init| ensures 1 <= init[i] <= 5 {
            assert init[i] == rs[i];
          }
        }
      }
    }
  }

  function SumSeq(xs: seq<int>): int {
    if xs == [] then 0 else SumSeq(xs[..|xs| - 1]) + xs[|xs| - 1]
  }

  /** With ratings in 1..5 the five buckets count every rating exactly once. */
  lemma {:induction false} HistogramTotal(rs: seq<int>)
    requires InStarRange(rs)
    ensures CountStar(rs, 1) + CountStar(rs, 2) + CountStar(rs, 3) + CountStar(rs, 4) + CountStar(rs, 5) == |rs|
    decreases |rs|
  {
    if rs != [] {
      var init := rs[..|rs| - 1];
      assert InStarRange(init) by {
        forall i | 0 <= i < |init| ensures 1 <= init[i] <= 5 {
          assert init[i] == rs[i];
        }
      }
      HistogramTotal(init);
    }
  }

  /** `count * 100.0 / total`, or 0 when nothing has a rating. */
  function Rate(count: int, total: int): (r: Ratio)
    ensures total > 0 ==> r == Ratio(count * 100, total)
    ensures total <= 0 ==> r.num == 0 && r.den != 0
  {
    if total > 0 then Ratio(count * 100, total) else Ratio(0, 1)
  }

  /** With ratings in 1..5 the positive, neutral and negative rates add up to 100%. */
  lemma RatesSumToHundred(rs: seq<int>)
    requires InStarRange(rs) && |rs| > 0
    ensures Rate(Count(rs, IsPositive), |rs|).num + Rate(Count(rs, IsNeutral), |rs|).num
      + Rate(Count(rs, IsNegative), |rs|).num == 100 * |rs|
  {
    SentimentPartition(rs);
  }

  /** The star percentages: bucket `i` is the share of ratings equal to `i + 1`. */
  function Histogram(rs: seq<int>): (pct: seq<Ratio>)
    ensures |pct| == 5
  {
    seq(5, i requires 0 <= i < 5 => Rate(CountStar(rs, i + 1), |rs|))
  }

  /**
   * The histogram loops. The first evaluates each bucket `i` with its own filter-and-count
   * pass over the ratings, for the rating `i + 1`; the second takes each bucket's percentage
   * over all valid ratings (0 when there are none).
   */
  method RatingStatistics(rs: seq<int>) returns (distribution: seq<int>, percentage: seq<Ratio>)
    ensures |distribution| == 5 && |percentage| == 5
    ensures forall i :: 0 <= i < 5 ==> distribution[i] == CountStar(rs, i + 1)
    ensures forall i :: 0 <= i < 5 ==> percentage[i] == Rate(CountStar(rs, i + 1), |rs|)
    ensures percentage == Histogram(rs)
  {
    var total := |rs|;
    var dist := new int[5];
    for i := 0 to 5
      invariant forall k :: 0 <= k < i ==> dist[k] == CountStar(rs, k + 1)
    {
      dist[i] := CountStar(rs, i + 1);
    }
    var pct := new Ratio[5](_ => Ratio(0, 1));
    for i := 0 to 5
      invariant forall k :: 0 <= k < 5 ==> dist[k] == CountStar(rs, k + 1)
      invariant forall k :: 0 <= k < i ==> pct[k] == Rate(dist[k], total)
    {
      pct[i] := if total > 0 then Ratio(dist[i] * 100, total) else Ratio(0, 1);
    }
    distribution, percentage := dist[..], pct[..];
  }
}
