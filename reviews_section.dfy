/** The reviews section of a product page: the product's reviews, loaded from the
    review store after a delay, their average rating and the count and share of
    each star value from five down to one. */
module ReviewsSection {
  import opened Common
  import opened Reviews

  /** The star values in the order the distribution lists them. */
  const Stars: seq<int> := [5, 4, 3, 2, 1]

  datatype Bucket = Bucket(star: int, count: nat, percentage: real)

  /** The reviews with the given rating. */
  function CountStar(rs: seq<Review>, star: int): (n: nat)
    ensures n <= |rs|
  {
    if rs == [] then 0
    else (if rs[0].rating == star then 1 else 0) + CountStar(rs[1..], star)
  }

  /** The mean of the ratings, 0 without reviews. */
  function Average(rs: seq<Review>): (a: real)
    ensures rs == [] ==> a == 0.0
    ensures |rs| > 0 ==> a * |rs| as real == SumRatings(rs) as real
  {
    if |rs| > 0 then SumRatings(rs) as real / |rs| as real else 0.0
  }

  function BucketFor(rs: seq<Review>, star: int): (b: Bucket)
    ensures b.star == star && b.count == CountStar(rs, star)
  {
    var c := CountStar(rs, star);
    Bucket(star, c, if |rs| > 0 then c as real / |rs| as real * 100.0 else 0.0)
  }

  function Distribution(rs: seq<Review>): (d: seq<Bucket>)
    ensures |d| == 5 && forall i :: 0 <= i < 5 ==> d[i].star == Stars[i]
  {
    [BucketFor(rs, 5), BucketFor(rs, 4), BucketFor(rs, 3), BucketFor(rs, 2), BucketFor(rs, 1)]
  }

  predicate RatingsInRange(rs: seq<Review>) {
    forall i :: 0 <= i < |rs| ==> 1 <= rs[i].rating <= 5
  }

  function Counts(d: seq<Bucket>): nat {
    if d == [] then 0 else d[0].count + Counts(d[1..])
  }

  // ---- lemmas ------------------------------------------------------------------------

  /** With ratings from 1 to 5, each review is counted in exactly one bucket. */
  lemma {:induction false} CountsCover(rs: seq<Review>)
    requires RatingsInRange(rs)
    ensures CountStar(rs, 5) + CountStar(rs, 4) + CountStar(rs, 3) + CountStar(rs, 2) + CountStar(rs, 1) == |rs|
  {
    if rs != [] {
      assert RatingsInRange(rs[1..]) by {
        forall i | 0 <= i < |rs[1..]| ensures 1 <= rs[1..][i].rating <= 5 {
          assert rs[1..][i] == rs[i + 1];
        }
      }
      CountsCover(rs[1..]);
      assert 1 <= rs[0].rating <= 5;
    }
  }

  /** The bucket counts add up to the number of reviews. */
  lemma DistributionCounts(rs: seq<Review>)
    requires RatingsInRange(rs)
    ensures Counts(Distribution(rs)) == |rs|
  {
    var d := Distribution(rs);
    CountsCover(rs);
    assert d[1..][1..][1..][1..][1..] == [];
    assert Counts(d[1..][1..][1..][1..]) == CountStar(rs, 1);
    assert Counts(d[1..][1..][1..]) == CountStar(rs, 2) + CountStar(rs, 1);
    assert Counts(d[1..][1..]) == CountStar(rs, 3) + CountStar(rs, 2) + CountStar(rs, 1);
    assert Counts(d[1..]) == CountStar(rs, 4) + CountStar(rs, 3) + CountStar(rs, 2) + CountStar(rs, 1);
  }

  /** With at least one review the shares add up to 100 percent; without any,
      every share is 0. */
  lemma Percentages(rs: seq<Review>)
    requires RatingsInRange(rs)
    ensures var d := Distribution(rs);
            && (|rs| > 0 ==>
                  d[0].percentage + d[1].percentage + d[2].percentage + d[3].percentage + d[4].percentage == 100.0)
            && (|rs| == 0 ==> forall i :: 0 <= i < 5 ==> d[i].percentage == 0.0 && d[i].count == 0)
  {
    CountsCover(rs);
    var d := Distribution(rs);
    if |rs| > 0 {
      var n := |rs| as real;
      var c5, c4, c3, c2, c1 := CountStar(rs, 5) as real, CountStar(rs, 4) as real,
                                CountStar(rs, 3) as real, CountStar(rs, 2) as real, CountStar(rs, 1) as real;
      assert c5 + c4 + c3 + c2 + c1 == n;
      ShareSum(c5, c4, c3, c2, c1, n);
    }
  }

  lemma ShareSum(a: real, b: real, c: real, e: real, f: real, n: real)
    requires n > 0.0 && a + b + c + e + f == n
    ensures a / n * 100.0 + b / n * 100.0 + c / n * 100.0 + e / n * 100.0 + f / n * 100.0 == 100.0
  {
    assert a / n + b / n + c / n + e / n + f / n == (a + b + c + e + f) / n;
  }

  /** With ratings from 1 to 5 the average lies between 1 and 5. */
  lemma AverageInRange(rs: seq<Review>)
    requires RatingsInRange(rs) && |rs| > 0
    ensures 1.0 <= Average(rs) <= 5.0
  {
    MeanBounds(rs, 1, 5);
  }

  /** The section's average over the loaded reviews is the store's
      `getAverageRating` for the product. */
  lemma AverageMatchesStore(all: seq<Review>, productId: string)
    ensures Average(ByProduct(all, productId)) == AverageRating(all, productId).average
    ensures |ByProduct(all, productId)| == AverageRating(all, productId).count
  {
    ByProductSpec(all, productId);
    assert |ByProduct(all, productId)| == |ForProduct(all, productId)| by {
      assert |multiset(ByProduct(all, productId))| == |multiset(ForProduct(all, productId))|;
    }
  }

  // ---- the section state --------------------------------------------------------

  class Section {
    const productId: string
    var reviews: seq<Review>
    var isLoading: bool

    constructor (productId: string)
      ensures this.productId == productId && reviews == [] && isLoading
    {
      this.productId := productId;
      reviews := [];
      isLoading := true;
    }

    /** The start of `loadReviews`. */
    method StartLoading()
      modifies this
      ensures isLoading && reviews == old(reviews)
    {
      isLoading := true;
    }

    /** The timer's callback: the product's reviews, newest first, from the store. */
    method FinishLoading(store: ReviewStore)
      modifies this, store
      ensures !isLoading
      ensures reviews == ByProduct(Current(old(store.stored), store.loadTime), productId)
      ensures forall r :: r in reviews ==> r.productId == productId
      ensures store.stored == Some(Current(old(store.stored), store.loadTime))
    {
      reviews := store.GetReviewsByProductId(productId);
      ByProductSpec(Current(old(store.stored), store.loadTime), productId);
      isLoading := false;
    }
  }
}
