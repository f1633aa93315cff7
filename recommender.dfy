/**
 * The prediction engine: neighbourhood selection over the similarity
 * matrix, the similarity-weighted mean, the mean squared error, and the two
 * batch fillers that write a `prediction` column into a frame of reviews.
 */
module Recommender {
  import opened Matrices

  /** A neighbourhood: (business, similarity to the target) pairs, in index order. */
  type Neighborhood = seq<(BusinessId, real)>

  /** The businesses of a neighbourhood, in order. */
  function Items(nb: Neighborhood): seq<BusinessId>
  {
    seq(|nb|, i requires 0 <= i < |nb| => nb[i].0)
  }

  predicate AllPositive(nb: Neighborhood)
  {
    forall i :: 0 <= i < |nb| ==> nb[i].1 > 0.0
  }

  /** The similarity of `other` to `target` is present (not NaN) and strictly positive. */
  predicate Similar(s: SimilarityMatrix, target: BusinessId, other: BusinessId)
  {
    (target, other) in s.score && s.score[(target, other)] > 0.0
  }

  /** `scores[scores > 0]` where `scores = SIMILARITY[target].loc[rated]`. */
  function Positive(s: SimilarityMatrix, target: BusinessId, rated: seq<BusinessId>): (nb: Neighborhood)
    ensures forall i :: 0 <= i < |nb| ==>
      nb[i].0 in rated && Similar(s, target, nb[i].0) && nb[i].1 == s.score[(target, nb[i].0)]
    ensures forall b :: b in Items(nb) <==> b in rated && Similar(s, target, b)
  {
    if rated == [] then []
    else
      var rest := Positive(s, target, rated[1..]);
      if Similar(s, target, rated[0]) then
        var nb := [(rated[0], s.score[(target, rated[0])])] + rest;
        assert Items(nb) == [rated[0]] + Items(rest);
        nb
      else rest
  }

  /** Filtering a list without repetitions keeps it without repetitions: the neighbourhood is an ordered set. */
  lemma {:induction false} PositiveDistinct(s: SimilarityMatrix, target: BusinessId, rated: seq<BusinessId>)
    ensures Distinct(rated) ==> Distinct(Items(Positive(s, target, rated)))
  {
    if rated != [] && Distinct(rated) {
      var rest := Positive(s, target, rated[1..]);
      PositiveDistinct(s, target, rated[1..]);
      assert Distinct(rated[1..]) && rated[0] !in rated[1..];
      if Similar(s, target, rated[0]) {
        var nb := [(rated[0], s.score[(target, rated[0])])] + rest;
        assert Items(nb) == [rated[0]] + Items(rest);
      }
    }
  }

  /**
   * select_neighborhood: the businesses the user has rated whose similarity
   * to `business` is strictly positive; empty when the user is not a column
   * of the utility matrix or the business is not a column of the similarity
   * matrix.
   */
  function SelectNeighborhood(m: UtilityMatrix, s: SimilarityMatrix, user: UserId, business: BusinessId): (nb: Neighborhood)
    ensures user !in m.users || business !in s.items ==> nb == []
    ensures forall i :: 0 <= i < |nb| ==>
      (user, nb[i].0) in m.rating && Similar(s, business, nb[i].0) && nb[i].1 == s.score[(business, nb[i].0)]
    ensures forall b :: b in Items(nb) <==>
      user in m.users && business in s.items && b in m.items && (user, b) in m.rating && Similar(s, business, b)
    ensures Distinct(m.items) ==> Distinct(Items(nb))
  {
    if user !in m.users || business !in s.items then []
    else
      PositiveDistinct(s, business, Rated(m, user));
      Positive(s, business, Rated(m, user))
  }

  /** Sum of rating times similarity; a NaN rating contributes nothing (pandas skips NaN). */
  function WeightedSum(m: UtilityMatrix, user: UserId, nb: Neighborhood): real
  {
    if nb == [] then 0.0
    else
      (if (user, nb[0].0) in m.rating then m.rating[(user, nb[0].0)] * nb[0].1 else 0.0)
      + WeightedSum(m, user, nb[1..])
  }

  /** Sum of the similarities of a neighbourhood. */
  function SimilaritySum(nb: Neighborhood): real
  {
    if nb == [] then 0.0 else nb[0].1 + SimilaritySum(nb[1..])
  }

  lemma {:induction false} SimilaritySumPositive(nb: Neighborhood)
    requires AllPositive(nb)
    ensures SimilaritySum(nb) >= 0.0
    ensures nb != [] ==> SimilaritySum(nb) > 0.0
  {
    if nb != [] {
      SimilaritySumPositive(nb[1..]);
    }
  }

  /**
   * weighted_mean: 0 for an empty neighbourhood, otherwise the
   * similarity-weighted mean of the user's ratings. Reading the user's
   * column fails when the user is absent, so a non-empty neighbourhood needs
   * a known user; the similarities must be positive for the division.
   */
  function WeightedMean(m: UtilityMatrix, user: UserId, nb: Neighborhood): real
    requires AllPositive(nb)
    requires nb == [] || user in m.users
  {
    if nb == [] then 0.0
    else
      SimilaritySumPositive(nb);
      WeightedSum(m, user, nb) / SimilaritySum(nb)
  }

  /** The predicted rating of `business` for `user`: `weighted_mean(select_neighborhood(user, business), user)`. */
  function PredictRating(m: UtilityMatrix, s: SimilarityMatrix, user: UserId, business: BusinessId): real
  {
    var nb := SelectNeighborhood(m, s, user, business);
    WeightedMean(m, user, nb)
  }

  lemma {:induction false} WeightedSumBounds(m: UtilityMatrix, user: UserId, nb: Neighborhood, lo: real, hi: real)
    requires AllPositive(nb)
    requires forall i :: 0 <= i < |nb| ==>
      (user, nb[i].0) in m.rating && lo <= m.rating[(user, nb[i].0)] <= hi
    ensures lo * SimilaritySum(nb) <= WeightedSum(m, user, nb) <= hi * SimilaritySum(nb)
  {
    if nb != [] {
      WeightedSumBounds(m, user, nb[1..], lo, hi);
      var r, w := m.rating[(user, nb[0].0)], nb[0].1;
      assert (r - lo) * w >= 0.0;
      assert (hi - r) * w >= 0.0;
    }
  }

  /**
   * A weighted mean over a non-empty neighbourhood whose ratings all lie in
   * [lo, hi] lies in [lo, hi]: it is bounded by the least and the greatest
   * rating it averages.
   */
  lemma WeightedMeanBounds(m: UtilityMatrix, user: UserId, nb: Neighborhood, lo: real, hi: real)
    requires AllPositive(nb) && nb != [] && user in m.users
    requires forall i :: 0 <= i < |nb| ==>
      (user, nb[i].0) in m.rating && lo <= m.rating[(user, nb[i].0)] <= hi
    ensures SimilaritySum(nb) > 0.0
    ensures lo <= WeightedMean(m, user, nb) <= hi
  {
    SimilaritySumPositive(nb);
    var num, den := WeightedSum(m, user, nb), SimilaritySum(nb);
    assert WeightedMean(m, user, nb) == num / den;
    WeightedSumBounds(m, user, nb, lo, hi);
    QuotientBetween(num, den, lo, hi);
  }

  /** From lo * den <= num <= hi * den with a positive den, the quotient lies in [lo, hi]. */
  lemma QuotientBetween(num: real, den: real, lo: real, hi: real)
    requires den > 0.0 && lo * den <= num <= hi * den
    ensures lo <= num / den <= hi
  {
    var q := num / den;
    assert q * den == num;
    assert (q - lo) * den >= 0.0;
    assert (hi - q) * den >= 0.0;
  }

  /**
   * The soft-failure policy: an unknown user, an unknown business, or a user
   * with no ratings gives an empty neighbourhood and the prediction 0.
   */
  lemma PredictionFallback(m: UtilityMatrix, s: SimilarityMatrix, user: UserId, business: BusinessId)
    requires user !in m.users || business !in s.items || forall b :: (user, b) !in m.rating
    ensures SelectNeighborhood(m, s, user, business) == []
    ensures PredictRating(m, s, user, business) == 0.0
  {
    var nb := SelectNeighborhood(m, s, user, business);
    assert forall b :: b !in Items(nb);
    assert |nb| > 0 ==> nb[0].0 in Items(nb);
  }

  /**
   * When every rating of the user lies in [lo, hi] (say, 1 to 5 stars),
   * a prediction is either the fallback 0 or lies in [lo, hi].
   */
  lemma PredictionBounds(m: UtilityMatrix, s: SimilarityMatrix, user: UserId, business: BusinessId, lo: real, hi: real)
    requires forall b :: (user, b) in m.rating ==> lo <= m.rating[(user, b)] <= hi
    ensures SelectNeighborhood(m, s, user, business) == [] ==> PredictRating(m, s, user, business) == 0.0
    ensures SelectNeighborhood(m, s, user, business) != [] ==> lo <= PredictRating(m, s, user, business) <= hi
  {
    var nb := SelectNeighborhood(m, s, user, business);
    if nb != [] {
      WeightedMeanBounds(m, user, nb, lo, hi);
    }
  }

  /** A worked case: user A rated X 5 and Y 3, and nothing else. */
  const ExampleUtility := UtilityMatrix(["A"], ["X", "Y", "Z"], map[("A", "X") := 5.0, ("A", "Y") := 3.0])

  /** Z is 0.8 similar to X and 0.2 similar to Y. */
  const ExampleSimilarity := SimilarityMatrix(["X", "Y", "Z"], map[("Z", "X") := 0.8, ("Z", "Y") := 0.2])

  /** The worked case's prediction of A's rating for Z is 4.6. */
  lemma ExamplePrediction()
    ensures PredictRating(ExampleUtility, ExampleSimilarity, "A", "Z") == 4.6
  {
    ExampleNeighborhood();
    ExampleSums();
  }

  /** The worked case's numerator and denominator. */
  lemma ExampleSums()
    ensures WeightedSum(ExampleUtility, "A", [("X", 0.8), ("Y", 0.2)]) == 4.6
    ensures SimilaritySum([("X", 0.8), ("Y", 0.2)]) == 1.0
  {
    var nb: Neighborhood := [("X", 0.8), ("Y", 0.2)];
    assert nb[1..] == [("Y", 0.2)] && nb[1..][1..] == [];
  }

  /** The worked case's neighbourhood of Z: X and Y with their similarities. */
  lemma ExampleNeighborhood()
    ensures SelectNeighborhood(ExampleUtility, ExampleSimilarity, "A", "Z") == [("X", 0.8), ("Y", 0.2)]
  {
    ExampleRated();
    var rated: seq<BusinessId> := ["X", "Y"];
    assert rated[1..] == ["Y"] && rated[1..][1..] == [];
    assert Positive(ExampleSimilarity, "Z", ["Y"]) == [("Y", 0.2)];
    assert Positive(ExampleSimilarity, "Z", rated) == [("X", 0.8), ("Y", 0.2)];
  }

  /** In the worked case A has rated X and Y. */
  lemma ExampleRated()
    ensures Rated(ExampleUtility, "A") == ["X", "Y"]
  {
    var m := ExampleUtility;
    var items: seq<BusinessId> := ["X", "Y", "Z"];
    assert items[1..] == ["Y", "Z"] && items[1..][1..] == ["Z"] && items[1..][1..][1..] == [];
    assert RatedAmong(m, "A", ["Z"]) == [];
    assert RatedAmong(m, "A", ["Y", "Z"]) == ["Y"];
  }

  // ---------------------------------------------------------------------
  // Mean squared error over a frame of reviews
  // ---------------------------------------------------------------------

  /** One row of the review frame: its `business_id`, `user_id` and `stars` columns. */
  datatype Review = Review(businessId: BusinessId, userId: UserId, stars: real)

  /** Sum of squared differences; a NaN prediction contributes nothing (pandas skips NaN). */
  function SquaredErrorSum(reviews: seq<Review>, prediction: seq<Option<real>>): real
    requires |reviews| == |prediction|
  {
    if reviews == [] then 0.0
    else
      (match prediction[0]
        case None => 0.0
        case Some(p) => Square(reviews[0].stars - p))
      + SquaredErrorSum(reviews[1..], prediction[1..])
  }

  /**
   * mse: the sum of squared errors divided by the number of rows. An empty
   * frame divides 0.0 by 0, which is NaN (None).
   */
  function Mse(reviews: seq<Review>, prediction: seq<Option<real>>): Option<real>
    requires |reviews| == |prediction|
  {
    if reviews == [] then None
    else Some(SquaredErrorSum(reviews, prediction) / |reviews| as real)
  }

  /** Every prediction that is present equals the row's stars. */
  predicate ExactWherePredicted(reviews: seq<Review>, prediction: seq<Option<real>>)
    requires |reviews| == |prediction|
  {
    forall i :: 0 <= i < |reviews| && prediction[i].Some? ==> prediction[i].value == reviews[i].stars
  }

  lemma {:induction false} SquaredErrorSumZero(reviews: seq<Review>, prediction: seq<Option<real>>)
    requires |reviews| == |prediction|
    ensures SquaredErrorSum(reviews, prediction) >= 0.0
    ensures SquaredErrorSum(reviews, prediction) == 0.0 <==> ExactWherePredicted(reviews, prediction)
  {
    if reviews != [] {
      SquaredErrorSumZero(reviews[1..], prediction[1..]);
      var term := match prediction[0]
        case None => 0.0
        case Some(p) => Square(reviews[0].stars - p);
      assert SquaredErrorSum(reviews, prediction) == term + SquaredErrorSum(reviews[1..], prediction[1..]);
      ExactWherePredictedSplit(reviews, prediction);
    }
  }

  lemma ExactWherePredictedSplit(reviews: seq<Review>, prediction: seq<Option<real>>)
    requires |reviews| == |prediction| && reviews != []
    ensures ExactWherePredicted(reviews, prediction) <==>
      (prediction[0].Some? ==> prediction[0].value == reviews[0].stars)
      && ExactWherePredicted(reviews[1..], prediction[1..])
  {
    if (prediction[0].Some? ==> prediction[0].value == reviews[0].stars)
      && ExactWherePredicted(reviews[1..], prediction[1..])
    {
      forall i | 0 <= i < |reviews| && prediction[i].Some?
        ensures prediction[i].value == reviews[i].stars
      {
        if i > 0 {
          assert prediction[1..][i - 1] == prediction[i] && reviews[1..][i - 1] == reviews[i];
        }
      }
    }
  }

  /** The square of a real: non-negative, and zero exactly at zero. */
  function Square(x: real): (r: real)
    ensures r >= 0.0
    ensures r == 0.0 <==> x == 0.0
  {
    if x == 0.0 then 0.0
    else if x > 0.0 then PositiveProduct(x, x)
    else PositiveProduct(-x, -x)
  }

  /** A product of two positive reals is positive; the solver needs this step spelled out. */
  function PositiveProduct(a: real, b: real): (r: real)
    requires a > 0.0 && b > 0.0
    ensures r > 0.0
  {
    a * b
  }

  /**
   * The mean squared error is NaN exactly for an empty frame; otherwise it is
   * non-negative, and it is 0 exactly when every prediction that is present
   * equals the row's stars.
   */
  lemma MseProperties(reviews: seq<Review>, prediction: seq<Option<real>>)
    requires |reviews| == |prediction|
    ensures Mse(reviews, prediction).None? <==> reviews == []
    ensures Mse(reviews, prediction).Some? ==> Mse(reviews, prediction).value >= 0.0
    ensures reviews != [] ==> (Mse(reviews, prediction) == Some(0.0) <==> ExactWherePredicted(reviews, prediction))
  {
    SquaredErrorSumZero(reviews, prediction);
    if reviews != [] {
      var sum, n := SquaredErrorSum(reviews, prediction), |reviews| as real;
      assert sum / n >= 0.0;
      assert sum / n == 0.0 <==> sum == 0.0 by {
        assert (sum / n) * n == sum;
      }
    }
  }

  // ---------------------------------------------------------------------
  // Batch prediction into the `prediction` column
  // ---------------------------------------------------------------------

  /** The `business_id` column. */
  function BusinessColumn(reviews: seq<Review>): seq<BusinessId>
  {
    seq(|reviews|, i requires 0 <= i < |reviews| => reviews[i].businessId)
  }

  /** The `user_id` column. */
  function UserColumn(reviews: seq<Review>): seq<UserId>
  {
    seq(|reviews|, i requires 0 <= i < |reviews| => reviews[i].userId)
  }

  /** `unique()`: each value once, in order of first appearance. */
  function Unique<T(==,!new)>(s: seq<T>): (u: seq<T>)
    ensures forall x :: x in u <==> x in s
    ensures forall i, j :: 0 <= i < j < |u| ==> u[i] != u[j]
  {
    if s == [] then []
    else
      var u := Unique(s[..|s| - 1]);
      assert forall x :: x in s <==> x in s[..|s| - 1] || x == s[|s| - 1];
      if s[|s| - 1] in u then u else u + [s[|s| - 1]]
  }

  /**
   * The rows whose `business_id` is `business`, in row order: the index of
   * the boolean mask `data['business_id'] == business`.
   */
  function MatchingRows(reviews: seq<Review>, business: BusinessId): (rows: seq<nat>)
    ensures forall k :: 0 <= k < |rows| ==> rows[k] < |reviews|
    ensures forall k, l :: 0 <= k < l < |rows| ==> rows[k] < rows[l]
    ensures forall i :: 0 <= i < |reviews| ==> (i in rows <==> reviews[i].businessId == business)
  {
    if reviews == [] then []
    else
      var init := reviews[..|reviews| - 1];
      assert forall i :: 0 <= i < |init| ==> init[i] == reviews[i];
      MatchingRows(init, business) + if reviews[|reviews| - 1].businessId == business then [|reviews| - 1] else []
  }

  /**
   * The `stars` of the rows of one business, in row order: one entry per
   * matching row, so a value occurs as often as the rows that carry it.
   */
  function StarsOf(reviews: seq<Review>, business: BusinessId): seq<real>
  {
    if reviews == [] then []
    else
      var last := reviews[|reviews| - 1];
      StarsOf(reviews[..|reviews| - 1], business) + (if last.businessId == business then [last.stars] else [])
  }

  /**
   * The selected `stars` have one entry per matching row, in row order, so
   * a value occurs as often as the rows that carry it.
   */
  lemma {:induction false} StarsOfRows(reviews: seq<Review>, business: BusinessId)
    ensures |StarsOf(reviews, business)| == |MatchingRows(reviews, business)|
    ensures forall k :: 0 <= k < |StarsOf(reviews, business)| ==>
      StarsOf(reviews, business)[k] == reviews[MatchingRows(reviews, business)[k]].stars
  {
    if reviews != [] {
      var init := reviews[..|reviews| - 1];
      var last := reviews[|reviews| - 1];
      StarsOfRows(init, business);
      assert MatchingRows(reviews, business)
        == MatchingRows(init, business) + if last.businessId == business then [|reviews| - 1] else [];
      assert forall i :: 0 <= i < |init| ==> init[i] == reviews[i];
    }
  }

  function Sum(xs: seq<real>): real
  {
    if xs == [] then 0.0 else Sum(xs[..|xs| - 1]) + xs[|xs| - 1]
  }

  /** pandas' `mean()` of a non-empty column. */
  function Mean(xs: seq<real>): real
    requires xs != []
  {
    Sum(xs) / |xs| as real
  }

  /** `data.loc[data['business_id'] == business, 'stars'].mean()`. */
  function BusinessMean(reviews: seq<Review>, business: BusinessId): real
    requires business in BusinessColumn(reviews)
  {
    StarsOfPresent(reviews, business);
    Mean(StarsOf(reviews, business))
  }

  lemma StarsOfPresent(reviews: seq<Review>, business: BusinessId)
    requires business in BusinessColumn(reviews)
    ensures StarsOf(reviews, business) != []
  {
    var i :| 0 <= i < |reviews| && BusinessColumn(reviews)[i] == business;
    StarsOfRows(reviews, business);
    assert i in MatchingRows(reviews, business);
  }

  lemma {:induction false} SumBounds(xs: seq<real>, lo: real, hi: real)
    requires forall i :: 0 <= i < |xs| ==> lo <= xs[i] <= hi
    ensures lo * |xs| as real <= Sum(xs) <= hi * |xs| as real
  {
    if xs != [] {
      SumBounds(xs[..|xs| - 1], lo, hi);
    }
  }

  /** The baseline for a business lies between the least and the greatest of its stars. */
  lemma BusinessMeanBounds(reviews: seq<Review>, business: BusinessId, lo: real, hi: real)
    requires business in BusinessColumn(reviews)
    requires forall i :: 0 <= i < |reviews| && reviews[i].businessId == business ==> lo <= reviews[i].stars <= hi
    ensures lo <= BusinessMean(reviews, business) <= hi
  {
    StarsOfPresent(reviews, business);
    StarsOfBetween(reviews, business, lo, hi);
    MeanBetween(StarsOf(reviews, business), lo, hi);
  }

  lemma MeanBetween(xs: seq<real>, lo: real, hi: real)
    requires xs != []
    requires forall k :: 0 <= k < |xs| ==> lo <= xs[k] <= hi
    ensures lo <= Mean(xs) <= hi
  {
    SumBounds(xs, lo, hi);
    QuotientBetween(Sum(xs), |xs| as real, lo, hi);
  }

  lemma StarsOfBetween(reviews: seq<Review>, business: BusinessId, lo: real, hi: real)
    requires forall i :: 0 <= i < |reviews| && reviews[i].businessId == business ==> lo <= reviews[i].stars <= hi
    ensures forall k :: 0 <= k < |StarsOf(reviews, business)| ==> lo <= StarsOf(reviews, business)[k] <= hi
  {
    var xs := StarsOf(reviews, business);
    var rows := MatchingRows(reviews, business);
    StarsOfRows(reviews, business);
    forall k | 0 <= k < |xs| ensures lo <= xs[k] <= hi {
      assert rows[k] in rows;
    }
  }

  /** The prediction of row i: the weighted mean for its own user and business. */
  function RowPrediction(m: UtilityMatrix, s: SimilarityMatrix, reviews: seq<Review>, i: int): real
    requires 0 <= i < |reviews|
  {
    PredictRating(m, s, reviews[i].userId, reviews[i].businessId)
  }

  /** The baseline of row i: the mean stars of its own business. */
  function RowBaseline(reviews: seq<Review>, i: int): real
    requires 0 <= i < |reviews|
  {
    assert BusinessColumn(reviews)[i] == reviews[i].businessId;
    BusinessMean(reviews, reviews[i].businessId)
  }

  /**
   * The frame of reviews that predict and baseline_prediction update in
   * place: its identifying columns never change, its `prediction` column
   * (None for NaN) is rewritten.
   */
  class ReviewFrame {
    const reviews: seq<Review>
    var prediction: seq<Option<real>>

    ghost predicate Valid()
      reads this
    {
      |prediction| == |reviews|
    }

    /** A frame whose `prediction` column is all NaN. */
    constructor (reviews: seq<Review>)
      ensures Valid() && this.reviews == reviews
      ensures forall i :: 0 <= i < |reviews| ==> prediction[i].None?
    {
      this.reviews := reviews;
      prediction := seq(|reviews|, _ => None);
    }

    /** `data.loc[(business_id == business) & (user_id == user), 'prediction'] = value`. */
    method AssignWhere(business: BusinessId, user: UserId, value: real)
      requires Valid()
      modifies this
      ensures Valid()
      ensures forall i :: 0 <= i < |reviews| ==>
        prediction[i] == if reviews[i].businessId == business && reviews[i].userId == user
                         then Some(value) else old(prediction[i])
    {
      var rows, column := reviews, prediction;
      prediction := seq(|rows|, i requires 0 <= i < |rows| =>
        if rows[i].businessId == business && rows[i].userId == user then Some(value) else column[i]);
    }

    /**
     * predict: every row gets the weighted-mean prediction for its own
     * (user, business) pair; the other columns are untouched.
     */
    method Predict(m: UtilityMatrix, s: SimilarityMatrix)
      requires Valid()
      modifies this
      ensures Valid()
      ensures forall i :: 0 <= i < |reviews| ==>
        prediction[i] == Some(PredictRating(m, s, reviews[i].userId, reviews[i].businessId))
    {
      var businessIds := Unique(BusinessColumn(reviews));
      var userIds := Unique(UserColumn(reviews));
      prediction := seq(|reviews|, _ => None);
      forall i | 0 <= i < |reviews| ensures reviews[i].userId in userIds {
        assert UserColumn(reviews)[i] == reviews[i].userId;
      }
      var k := 0;
      while k < |businessIds|
        invariant Valid() && 0 <= k <= |businessIds|
        invariant forall i :: 0 <= i < |reviews| ==>
          prediction[i] == if reviews[i].businessId in businessIds[..k] then Some(RowPrediction(m, s, reviews, i)) else None
      {
        var business := businessIds[k];
        PredictForBusiness(m, s, business, userIds);
        assert forall b :: b in businessIds[..k + 1] <==> b in businessIds[..k] || b == business;
        k := k + 1;
      }
      forall i | 0 <= i < |reviews| ensures reviews[i].businessId in businessIds {
        assert BusinessColumn(reviews)[i] == reviews[i].businessId;
      }
      assert businessIds[..k] == businessIds;
    }

    /** The inner loop of predict: every row of `business` gets its weighted-mean prediction. */
    method PredictForBusiness(m: UtilityMatrix, s: SimilarityMatrix, business: BusinessId, userIds: seq<UserId>)
      requires Valid()
      requires forall i :: 0 <= i < |reviews| ==> reviews[i].userId in userIds
      modifies this
      ensures Valid()
      ensures forall i :: 0 <= i < |reviews| ==>
        prediction[i] == if reviews[i].businessId == business then Some(RowPrediction(m, s, reviews, i)) else old(prediction[i])
    {
      var j := 0;
      while j < |userIds|
        invariant Valid() && 0 <= j <= |userIds|
        invariant forall i :: 0 <= i < |reviews| ==>
          prediction[i] == if reviews[i].businessId == business && reviews[i].userId in userIds[..j]
                           then Some(RowPrediction(m, s, reviews, i)) else old(prediction[i])
      {
        var user := userIds[j];
        var p := PredictRating(m, s, user, business);
        AssignWhere(business, user, p);
        assert userIds[..j + 1] == userIds[..j] + [user];
        j := j + 1;
      }
      assert userIds[..j] == userIds;
    }

    /** The inner loop of baseline_prediction: every row of `business` gets its mean stars. */
    method BaselineForBusiness(business: BusinessId, userIds: seq<UserId>)
      requires Valid() && business in BusinessColumn(reviews)
      requires forall i :: 0 <= i < |reviews| ==> reviews[i].userId in userIds
      modifies this
      ensures Valid()
      ensures forall i :: 0 <= i < |reviews| ==>
        prediction[i] == if reviews[i].businessId == business then Some(RowBaseline(reviews, i)) else old(prediction[i])
    {
      var j := 0;
      while j < |userIds|
        invariant Valid() && 0 <= j <= |userIds|
        invariant forall i :: 0 <= i < |reviews| ==>
          prediction[i] == if reviews[i].businessId == business && reviews[i].userId in userIds[..j]
                           then Some(RowBaseline(reviews, i)) else old(prediction[i])
      {
        var user := userIds[j];
        var p := BusinessMean(reviews, business);
        AssignWhere(business, user, p);
        assert userIds[..j + 1] == userIds[..j] + [user];
        j := j + 1;
      }
      assert userIds[..j] == userIds;
    }

    /**
     * baseline_prediction: every row gets the mean of the stars of all rows
     * of the same business; the other columns are untouched.
     */
    method BaselinePrediction()
      requires Valid()
      modifies this
      ensures Valid()
      ensures forall i :: 0 <= i < |reviews| ==>
        reviews[i].businessId in BusinessColumn(reviews) &&
        prediction[i] == Some(BusinessMean(reviews, reviews[i].businessId))
    {
      var businessIds := Unique(BusinessColumn(reviews));
      var userIds := Unique(UserColumn(reviews));
      prediction := seq(|reviews|, _ => None);
      forall i | 0 <= i < |reviews| ensures reviews[i].userId in userIds {
        assert UserColumn(reviews)[i] == reviews[i].userId;
      }
      var k := 0;
      while k < |businessIds|
        invariant Valid() && 0 <= k <= |businessIds|
        invariant forall i :: 0 <= i < |reviews| ==>
          prediction[i] == if reviews[i].businessId in businessIds[..k] then Some(RowBaseline(reviews, i)) else None
      {
        var business := businessIds[k];
        assert business in BusinessColumn(reviews);
        BaselineForBusiness(business, userIds);
        assert forall b :: b in businessIds[..k + 1] <==> b in businessIds[..k] || b == business;
        k := k + 1;
      }
      forall i | 0 <= i < |reviews| ensures reviews[i].businessId in BusinessColumn(reviews) {
        assert BusinessColumn(reviews)[i] == reviews[i].businessId;
      }
      assert businessIds[..k] == businessIds;
    }
  }
}
