/** The review store of the mock service layer: an in-memory list of
    reviews, newest first, with a counter that hands out the next id. */
module Reviews {
  import opened Common

  /** A renter's review of a boat. */
  datatype Review = Review(
    id: int,
    boatId: int,
    userName: string,
    userAvatar: string,
    rating: int,
    date: Day,
    comment: string)

  /** What the review form supplies. */
  datatype NewReview = NewReview(
    boatId: int,
    userName: Option<string>,
    userAvatar: Option<string>,
    rating: int,
    comment: string)

  const DefaultUserName: string := "Utilisateur"
  const DefaultUserAvatar: string := "U"
  const DefaultRecentLimit: int := 10

  /** The key reviews are looked up by. */
  function ReviewId(r: Review): int
  {
    r.id
  }

  /** `rs.reduce((acc, r) => acc + r.rating, 0)`. */
  function RatingSum(rs: seq<Review>): int
  {
    if rs == [] then 0 else RatingSum(rs[..|rs| - 1]) + rs[|rs| - 1].rating
  }

  /** A sum of ratings that all lie between `lo` and `hi` lies between
      `lo` and `hi` times their number. */
  lemma {:induction false} RatingSumBounds(rs: seq<Review>, lo: int, hi: int)
    requires forall i :: 0 <= i < |rs| ==> lo <= rs[i].rating <= hi
    ensures lo * |rs| <= RatingSum(rs) <= hi * |rs|
  {
    if rs != [] {
      var init := rs[..|rs| - 1];
      assert forall i :: 0 <= i < |init| ==> init[i] == rs[i];
      RatingSumBounds(init, lo, hi);
      assert lo * |rs| == lo * |init| + lo;
      assert hi * |rs| == hi * |init| + hi;
    }
  }

  /** The sort key that puts the latest date first. */
  function NewestFirst(r: Review): int
  {
    -r.date
  }

  /** A prefix of a list sorted newest first is sorted newest first and
      takes nothing the list does not hold. */
  lemma NewestPrefix(sorted: seq<Review>, n: nat)
    requires SortedBy(sorted, NewestFirst)
    requires n <= |sorted|
    ensures forall i, j :: 0 <= i < j < n ==> sorted[i].date >= sorted[j].date
    ensures multiset(sorted[..n]) <= multiset(sorted)
  {
    forall i, j | 0 <= i < j < n
      ensures sorted[i].date >= sorted[j].date
    {
      assert NewestFirst(sorted[i]) <= NewestFirst(sorted[j]);
    }
    assert sorted == sorted[..n] + sorted[n..];
    assert multiset(sorted) == multiset(sorted[..n]) + multiset(sorted[n..]);
  }

  /** A mean of integers bounded by `lo` and `hi` lies between them. */
  lemma MeanBounds(sum: int, n: int, lo: int, hi: int)
    requires n > 0
    requires lo * n <= sum <= hi * n
    ensures lo as real <= sum as real / n as real <= hi as real
  {
    var m := sum as real / n as real;
    assert m * n as real == sum as real;
    assert (lo * n) as real == lo as real * n as real;
    assert (hi * n) as real == hi as real * n as real;
    assert (m - lo as real) * n as real == sum as real - (lo * n) as real;
    assert (hi as real - m) * n as real == (hi * n) as real - sum as real;
  }

  /** Removing one review keeps every remaining id below a bound that all
      ids were below. */
  lemma RemoveKeepsIdsBelow(rs: seq<Review>, i: nat, bound: int)
    requires i < |rs|
    requires forall k :: 0 <= k < |rs| ==> rs[k].id < bound
    ensures forall k :: 0 <= k < |RemoveAt(rs, i)| ==> RemoveAt(rs, i)[k].id < bound
  {
    var r := RemoveAt(rs, i);
    forall k | 0 <= k < |r|
      ensures r[k].id < bound
    {
      if k < i {
        assert r[k] == rs[k];
      } else {
        assert r[k] == rs[k + 1];
      }
    }
  }

  class ReviewService {
    var reviews: seq<Review>
    var nextId: int

    /** Every stored id lies below the next id to hand out. */
    ghost predicate Valid()
      reads this
    {
      forall i :: 0 <= i < |reviews| ==> reviews[i].id < nextId
    }

    /** The counter starts one past the largest initial id. */
    constructor(initial: seq<Review>)
      requires |initial| > 0
      ensures reviews == initial && nextId == MaxOf(Keys(initial, ReviewId)) + 1
      ensures Valid()
    {
      reviews := initial;
      var ids := Keys(initial, ReviewId);
      nextId := MaxOf(ids) + 1;
      new;
      forall i | 0 <= i < |reviews|
        ensures reviews[i].id < nextId
      {
        assert ids[i] in ids;
      }
    }

    /** getAllReviews: a copy of the store. */
    function GetAllReviews(): (r: seq<Review>)
      reads this
      ensures |r| == |reviews| && forall i :: 0 <= i < |r| ==> r[i] == reviews[i]
    {
      reviews
    }

    /** getReviewsByBoatId: exactly the boat's reviews, in store order. */
    function GetReviewsByBoatId(boatId: int): (r: seq<Review>)
      reads this
      ensures forall x :: x in r <==> x in reviews && x.boatId == boatId
      ensures forall x :: multiset(r)[x] == if x.boatId == boatId then multiset(reviews)[x] else 0
      ensures IsSubsequence(r, reviews)
    {
      FilterCount(reviews, (x: Review) => x.boatId == boatId);
      FilterMembers(reviews, (x: Review) => x.boatId == boatId);
      FilterSubsequence(reviews, (x: Review) => x.boatId == boatId);
      Filter(reviews, (x: Review) => x.boatId == boatId)
    }

    /** getReviewById: the first review with that id, or null. */
    function GetReviewById(id: int): (r: Option<Review>)
      reads this
      ensures r.None? <==> forall x :: x in reviews ==> x.id != id
      ensures r.Some? ==> r.value.id == id &&
                          exists i :: FirstMatch(reviews, (x: Review) => x.id == id, i) && reviews[i] == r.value
    {
      Find(reviews, (x: Review) => x.id == id)
    }

    /** getAverageRating: 0 for a boat without reviews, otherwise the mean of
        its ratings (before rounding to one decimal). */
    function AverageRating(boatId: int): (r: real)
      reads this
      ensures GetReviewsByBoatId(boatId) == [] ==> r == 0.0
      ensures GetReviewsByBoatId(boatId) != [] ==>
                r * |GetReviewsByBoatId(boatId)| as real == RatingSum(GetReviewsByBoatId(boatId)) as real
    {
      var boatReviews := GetReviewsByBoatId(boatId);
      if |boatReviews| == 0 then 0.0
      else RatingSum(boatReviews) as real / |boatReviews| as real
    }

    /** getRecentReviews: the first `limit` (default 10) reviews of a copy
        of the store sorted newest first; the store keeps its order. */
    function GetRecentReviews(limit: Option<int>): (r: seq<Review>)
      reads this
      ensures var n := limit.GetOr(DefaultRecentLimit);
              n >= 0 ==> |r| == if n < |reviews| then n else |reviews|
      ensures var n := limit.GetOr(DefaultRecentLimit);
              n < 0 ==> |r| == if |reviews| + n > 0 then |reviews| + n else 0
      ensures forall i, j :: 0 <= i < j < |r| ==> r[i].date >= r[j].date
      ensures multiset(r) <= multiset(reviews)
      ensures |r| <= |reviews| && r == SortBy(reviews, NewestFirst)[..|r|]
    {
      var sorted := SortBy(reviews, NewestFirst);
      var r := JsTake(sorted, limit.GetOr(DefaultRecentLimit));
      NewestPrefix(sorted, |r|);
      r
    }

    /** createReview: puts the review at the front under the next id, with
        the default name and avatar where none is given. */
    method CreateReview(input: NewReview, today: Day) returns (review: Review)
      requires Valid()
      modifies this
      ensures Valid()
      ensures review.id == old(nextId) && nextId == old(nextId) + 1
      ensures forall x :: x in old(reviews) ==> x.id < review.id
      ensures reviews == [review] + old(reviews)
      ensures review.userName == OrDefault(input.userName, DefaultUserName)
      ensures review.userAvatar == OrDefault(input.userAvatar, DefaultUserAvatar)
      ensures review.boatId == input.boatId && review.rating == input.rating
      ensures review.comment == input.comment && review.date == today
    {
      review := Review(nextId, input.boatId, OrDefault(input.userName, DefaultUserName),
        OrDefault(input.userAvatar, DefaultUserAvatar), input.rating, today, input.comment);
      nextId := nextId + 1;
      reviews := [review] + reviews;
    }

    /** deleteReview: removes the first review with that id; false if none. */
    method DeleteReview(id: int) returns (ok: bool)
      requires Valid()
      modifies this
      ensures Valid() && nextId == old(nextId)
      ensures ok <==> exists x :: x in old(reviews) && x.id == id
      ensures var i := FindIndex(old(reviews), (x: Review) => x.id == id);
        && (i == -1 ==> reviews == old(reviews))
        && (i >= 0 ==> reviews == RemoveAt(old(reviews), i))
      ensures ok ==> |reviews| == |old(reviews)| - 1
    {
      var index := FindIndex(reviews, (x: Review) => x.id == id);
      if index == -1 {
        return false;
      }
      assert reviews[index] in reviews;
      RemoveKeepsIdsBelow(reviews, index, nextId);
      reviews := RemoveAt(reviews, index);
      return true;
    }
  }

  /** The average lies between the lowest and highest rating the boat
      received. */
  lemma AverageWithinRatings(s: ReviewService, boatId: int, lo: int, hi: int)
    requires s.GetReviewsByBoatId(boatId) != []
    requires forall i :: 0 <= i < |s.GetReviewsByBoatId(boatId)| ==> lo <= s.GetReviewsByBoatId(boatId)[i].rating <= hi
    ensures lo as real <= s.AverageRating(boatId) <= hi as real
  {
    var rs := s.GetReviewsByBoatId(boatId);
    RatingSumBounds(rs, lo, hi);
    MeanBounds(RatingSum(rs), |rs|, lo, hi);
  }
}
