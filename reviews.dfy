/** The review store: the list of reviews kept in browser storage, seeded with
    five sample reviews the first time it is read, with a per-product query
    (newest first), appending, the "helpful" counter and the average rating.
    Timestamps are integer milliseconds; the storage slot is `None` until
    something has been stored. */
module Reviews {
  import opened Common
  import Sorting

  datatype Review = Review(
    id: string, productId: string, userId: string, userName: string,
    rating: int, title: string, comment: string, createdAt: int, helpful: int)

  const DayMs: int := 24 * 60 * 60 * 1000

  /** The comment texts of the sample reviews. */
  const SeedComment1 := "The noise cancellation is incredible. I use these for work calls and music, and they perform flawlessly. Battery life is exactly as advertised."
  const SeedComment2 := "Audio quality is superb and ANC works well. Only minor complaint is they feel a bit tight after extended wear. Otherwise excellent purchase."
  const SeedComment3 := "Tracks everything accurately. The ECG feature saved my life when it detected an irregular heartbeat. Highly recommend!"
  const SeedComment4 := "The tactile feedback is amazing. RGB lighting is customizable and the build quality is premium. Best keyboard for gaming and typing."
  const SeedComment5 := "Great keyboard for gaming. The switches are responsive but they can be a bit loud for office use. Overall very satisfied."

  /** The sample reviews, dated relative to the moment the module was loaded. */
  function SeedReviews(loadTime: int): seq<Review> {
    [ Review("rev-001", "prod-001", "user-1", "Test User", 5, "Best headphones I have ever owned!",
             SeedComment1,
             loadTime - 14 * DayMs, 12),
      Review("rev-002", "prod-001", "user-2", "Sarah M.", 4, "Great sound, slightly tight fit",
             SeedComment2,
             loadTime - 7 * DayMs, 8),
      Review("rev-003", "prod-002", "user-3", "Mike Johnson", 5, "Perfect fitness companion",
             SeedComment3,
             loadTime - 5 * DayMs, 24),
      Review("rev-004", "prod-003", "user-4", "Alex Chen", 5, "Mechanical keyboard dream",
             SeedComment4,
             loadTime - 3 * DayMs, 15),
      Review("rev-005", "prod-003", "user-5", "Emma Wilson", 4, "Excellent but loud",
             SeedComment5,
             loadTime - 1 * DayMs, 6) ]
  }

  /** What `getReviews` returns for a storage slot. */
  function Current(stored: Option<seq<Review>>, loadTime: int): seq<Review> {
    match stored
    case None => SeedReviews(loadTime)
    case Some(rs) => rs
  }

  /** `filter(review => review.productId === productId)`. */
  function ForProduct(rs: seq<Review>, productId: string): (r: seq<Review>)
    ensures forall x :: x in r <==> x in rs && x.productId == productId
  {
    if rs == [] then []
    else if rs[0].productId == productId then [rs[0]] + ForProduct(rs[1..], productId)
    else ForProduct(rs[1..], productId)
  }

  /** The descending comparator `b - a` sorts by the negated timestamp. */
  function NewestFirstKey(r: Review): int { -r.createdAt }

  /** `getReviewsByProductId`: the product's reviews, newest first. */
  function ByProduct(rs: seq<Review>, productId: string): (r: seq<Review>)
    ensures |r| == |ForProduct(rs, productId)|
  {
    Sorting.SortBy(ForProduct(rs, productId), NewestFirstKey)
  }

  /** `hasUserReviewedProduct`. */
  predicate HasReviewed(rs: seq<Review>, productId: string, userId: string) {
    exists i :: 0 <= i < |rs| && rs[i].productId == productId && rs[i].userId == userId
  }

  /** `findIndex(r => r.id === id)`, `-1` when there is none. */
  function FindIndex(rs: seq<Review>, id: string): (k: int)
    ensures -1 <= k < |rs|
    ensures k >= 0 ==> rs[k].id == id && forall i :: 0 <= i < k ==> rs[i].id != id
    ensures k == -1 ==> forall i :: 0 <= i < |rs| ==> rs[i].id != id
  {
    if rs == [] then -1
    else if rs[0].id == id then 0
    else var k := FindIndex(rs[1..], id); if k == -1 then -1 else k + 1
  }

  function SumRatings(rs: seq<Review>): int {
    if rs == [] then 0 else rs[0].rating + SumRatings(rs[1..])
  }

  datatype RatingSummary = RatingSummary(average: real, count: nat)

  /** `getAverageRating`. */
  function AverageRating(rs: seq<Review>, productId: string): (s: RatingSummary)
    ensures s.count == |ForProduct(rs, productId)|
    ensures s.count == 0 ==> s.average == 0.0
  {
    var list := ByProduct(rs, productId);
    if |list| == 0 then RatingSummary(0.0, 0)
    else RatingSummary(SumRatings(list) as real / |list| as real, |list|)
  }

  // ---- lemmas ------------------------------------------------------------------------

  /** The per-product query returns exactly that product's reviews, each as often
      as it is stored, ordered from the newest to the oldest; reviews of equal
      timestamp keep their storage order. */
  lemma {:induction false} ByProductSpec(rs: seq<Review>, productId: string)
    ensures multiset(ByProduct(rs, productId)) == multiset(ForProduct(rs, productId))
    ensures forall x :: x in ByProduct(rs, productId) <==> x in rs && x.productId == productId
    ensures forall i, j :: 0 <= i < j < |ByProduct(rs, productId)| ==>
              ByProduct(rs, productId)[i].createdAt >= ByProduct(rs, productId)[j].createdAt
    ensures forall t :: Sorting.WithKey(ByProduct(rs, productId), NewestFirstKey, t) ==
                        Sorting.WithKey(ForProduct(rs, productId), NewestFirstKey, t)
  {
    var f := ForProduct(rs, productId);
    Sorting.SortSorted(f, NewestFirstKey);
    var r := ByProduct(rs, productId);
    forall x ensures x in r <==> x in f {
      assert x in r <==> x in multiset(r);
      assert x in f <==> x in multiset(f);
    }
    forall i, j | 0 <= i < j < |r| ensures r[i].createdAt >= r[j].createdAt {
      assert NewestFirstKey(r[i]) <= NewestFirstKey(r[j]);
    }
    forall t ensures Sorting.WithKey(r, NewestFirstKey, t) == Sorting.WithKey(f, NewestFirstKey, t) {
      Sorting.SortStable(f, NewestFirstKey, t);
    }
  }

  /** A user has reviewed a product exactly when one of the reviews the product page
      lists for it is theirs. */
  lemma HasReviewedInQuery(rs: seq<Review>, productId: string, userId: string)
    ensures HasReviewed(rs, productId, userId) <==>
            exists x :: x in ByProduct(rs, productId) && x.userId == userId
  {
    ByProductSpec(rs, productId);
    if HasReviewed(rs, productId, userId) {
      var i :| 0 <= i < |rs| && rs[i].productId == productId && rs[i].userId == userId;
      assert rs[i] in ByProduct(rs, productId);
    }
  }

  /** Once a review is added, its author has reviewed its product and it is listed
      for that product. */
  lemma {:induction false} AddedIsFound(rs: seq<Review>, review: Review)
    ensures HasReviewed(rs + [review], review.productId, review.userId)
    ensures review in ByProduct(rs + [review], review.productId)
  {
    assert (rs + [review])[|rs|] == review;
    ByProductSpec(rs + [review], review.productId);
  }

  /** `markReviewHelpful` on a list: the new list and the returned flag. */
  function MarkHelpful(rs: seq<Review>, id: string): (r: (seq<Review>, bool))
    ensures |r.0| == |rs|
    ensures r.1 <==> exists i :: 0 <= i < |rs| && rs[i].id == id
    ensures !r.1 ==> r.0 == rs
  {
    var k := FindIndex(rs, id);
    if k == -1 then (rs, false) else (rs[k := rs[k].(helpful := rs[k].helpful + 1)], true)
  }

  /** An unknown id changes nothing and reports false; otherwise only the first
      review with the id changes, and only its counter, which goes up by one. */
  lemma MarkHelpfulSpec(rs: seq<Review>, id: string)
    ensures var (after, found) := MarkHelpful(rs, id);
            && |after| == |rs|
            && (found <==> exists i :: 0 <= i < |rs| && rs[i].id == id)
            && (!found ==> after == rs)
            && (found ==> var k := FindIndex(rs, id);
                          && after[k] == rs[k].(helpful := rs[k].helpful + 1)
                          && forall i :: 0 <= i < |rs| && i != k ==> after[i] == rs[i])
  {
  }

  lemma {:induction false} SumBounds(rs: seq<Review>, lo: int, hi: int)
    requires forall i :: 0 <= i < |rs| ==> lo <= rs[i].rating <= hi
    ensures lo * |rs| <= SumRatings(rs) <= hi * |rs|
  {
    if rs != [] {
      SumBounds(rs[1..], lo, hi);
      assert lo * |rs| == lo + lo * |rs[1..]|;
      assert hi * |rs| == hi + hi * |rs[1..]|;
    }
  }

  /** When every rating of the product lies in `[lo, hi]`, so does the average. */
  lemma {:induction false} AverageBounds(rs: seq<Review>, productId: string, lo: int, hi: int)
    requires forall x :: x in rs && x.productId == productId ==> lo <= x.rating <= hi
    requires AverageRating(rs, productId).count > 0
    ensures lo as real <= AverageRating(rs, productId).average <= hi as real
  {
    var list := ByProduct(rs, productId);
    ByProductSpec(rs, productId);
    Sorting.SortSorted(ForProduct(rs, productId), NewestFirstKey);
    assert forall i :: 0 <= i < |list| ==> lo <= list[i].rating <= hi by {
      forall i | 0 <= i < |list| ensures lo <= list[i].rating <= hi {
        assert list[i] in list;
      }
    }
    MeanBounds(list, lo, hi);
  }

  lemma {:induction false} MeanBounds(list: seq<Review>, lo: int, hi: int)
    requires |list| > 0
    requires forall i :: 0 <= i < |list| ==> lo <= list[i].rating <= hi
    ensures lo as real <= SumRatings(list) as real / |list| as real <= hi as real
  {
    SumBounds(list, lo, hi);
    var n := |list|;
    var sum := SumRatings(list);
    CastMul(lo, n);
    CastMul(hi, n);
    assert (lo * n) as real <= sum as real <= (hi * n) as real;
    DivBounds(sum as real, n as real, lo as real, hi as real);
  }

  lemma {:induction false} CastMul(a: int, b: int)
    ensures (a * b) as real == a as real * b as real
  {
  }

  lemma DivBounds(s: real, n: real, lo: real, hi: real)
    requires n > 0.0 && lo * n <= s <= hi * n
    ensures lo <= s / n <= hi
  {
  }

  /** The sample reviews: five different ids, ratings from 1 to 5, no helpful
      count below zero. */
  lemma SeedFacts(loadTime: int)
    ensures |SeedReviews(loadTime)| == 5
    ensures forall i, j :: 0 <= i < j < 5 ==> SeedReviews(loadTime)[i].id != SeedReviews(loadTime)[j].id
    ensures forall i :: 0 <= i < 5 ==> 1 <= SeedReviews(loadTime)[i].rating <= 5
  {
  }

  // ---- the store -----------------------------------------------------------------

  class ReviewStore {
    /** The storage slot: `None` until the first write. */
    var stored: Option<seq<Review>>
    /** `Date.now()` when the seed data was built. */
    const loadTime: int

    constructor (loadTime: int)
      ensures stored == None && this.loadTime == loadTime
    {
      this.loadTime := loadTime;
      stored := None;
    }

    function All(): seq<Review>
      reads this
    {
      Current(stored, loadTime)
    }

    /** `initializeReviews`: an empty slot is filled with the seed reviews. A stored
        empty list is kept as it is. */
    method GetReviews() returns (rs: seq<Review>)
      modifies this
      ensures rs == Current(old(stored), loadTime)
      ensures old(stored) == None ==> rs == SeedReviews(loadTime)
      ensures stored == Some(rs)
    {
      if stored == None {
        stored := Some(SeedReviews(loadTime));
      }
      rs := stored.value;
    }

    method GetReviewsByProductId(productId: string) returns (rs: seq<Review>)
      modifies this
      ensures rs == ByProduct(Current(old(stored), loadTime), productId)
      ensures stored == Some(Current(old(stored), loadTime))
    {
      var all := GetReviews();
      rs := ByProduct(all, productId);
    }

    /** `addReview`. The id and the timestamp are supplied by the caller. */
    method AddReview(productId: string, userId: string, userName: string, rating: int,
                     title: string, comment: string, id: string, now: int) returns (review: Review)
      modifies this
      ensures review == Review(id, productId, userId, userName, rating, title, comment, now, 0)
      ensures stored == Some(Current(old(stored), loadTime) + [review])
      ensures HasReviewed(All(), productId, userId)
    {
      var all := GetReviews();
      review := Review(id, productId, userId, userName, rating, title, comment, now, 0);
      AddedIsFound(all, review);
      stored := Some(all + [review]);
    }

    /** `markReviewHelpful`. The seed data is stored even when the id is unknown. */
    method MarkReviewHelpful(id: string) returns (found: bool)
      modifies this
      ensures (All(), found) == MarkHelpful(Current(old(stored), loadTime), id)
      ensures stored.Some?
    {
      var all := GetReviews();
      var k := FindIndex(all, id);
      if k == -1 {
        return false;
      }
      all := all[k := all[k].(helpful := all[k].helpful + 1)];
      stored := Some(all);
      return true;
    }

    method HasUserReviewedProduct(productId: string, userId: string) returns (b: bool)
      modifies this
      ensures b == HasReviewed(Current(old(stored), loadTime), productId, userId)
      ensures stored == Some(Current(old(stored), loadTime))
    {
      var all := GetReviews();
      b := exists i :: 0 <= i < |all| && all[i].productId == productId && all[i].userId == userId;
    }

    method GetAverageRating(productId: string) returns (s: RatingSummary)
      modifies this
      ensures s == AverageRating(Current(old(stored), loadTime), productId)
      ensures stored == Some(Current(old(stored), loadTime))
    {
      var all := GetReviews();
      s := AverageRating(all, productId);
    }
  }
}
