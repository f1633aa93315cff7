/**
 * The ranking half of `recommend`: gather at least n candidate businesses,
 * predict a rating for every candidate except the excluded one, sort by
 * (city, rating, review count) ascending, keep the first n and resolve each
 * to a display record.
 */
module Ranking {
  import opened Matrices
  import Recommender

  /**
   * The requesting user: `user['user_id']`. The city it defaults to only
   * selects the city's businesses, which `Recommend` takes as an input.
   */
  datatype User = User(userId: UserId)

  /** A business as the catalog returns it. */
  datatype Business = Business(businessId: BusinessId, reviewCount: int, stars: real, city: string)

  /** The dictionary built per candidate: id, count, avg, city and rating. */
  datatype Prediction = Prediction(id: BusinessId, count: int, avg: real, city: string, rating: real)

  /** What the business lookup adds to a recommendation. */
  datatype Details = Details(name: string, address: string)

  /** One entry of the returned list. */
  datatype Recommendation = Recommendation(businessId: BusinessId, stars: real, name: string, city: string, address: string)

  // ---------------------------------------------------------------------
  // Strings
  // ---------------------------------------------------------------------

  predicate IsUpper(c: char)
  {
    'A' <= c <= 'Z'
  }

  function LowerChar(c: char): char
  {
    if IsUpper(c) then (c as int + 32) as char else c
  }

  /** `str.lower()` on ASCII letters. */
  function Lower(s: string): (r: string)
    ensures |r| == |s|
    ensures forall i :: 0 <= i < |r| ==> !IsUpper(r[i])
    ensures forall i :: 0 <= i < |r| && !IsUpper(s[i]) ==> r[i] == s[i]
    ensures forall i :: 0 <= i < |s| && IsUpper(s[i]) ==> r[i] as int == s[i] as int + 32
  {
    seq(|s|, i requires 0 <= i < |s| => LowerChar(s[i]))
  }

  /** Python's `<=` on strings: lexicographic by code point. */
  predicate StrLe(a: string, b: string)
  {
    if a == [] then true
    else if b == [] then false
    else if a[0] != b[0] then a[0] < b[0]
    else StrLe(a[1..], b[1..])
  }

  lemma {:induction false} StrLeTotal(a: string, b: string)
    ensures StrLe(a, b) || StrLe(b, a)
  {
    if a != [] && b != [] && a[0] == b[0] {
      StrLeTotal(a[1..], b[1..]);
    }
  }

  lemma {:induction false} StrLeAntisymmetric(a: string, b: string)
    requires StrLe(a, b) && StrLe(b, a)
    ensures a == b
  {
    if a != [] && b != [] {
      StrLeAntisymmetric(a[1..], b[1..]);
      assert a == [a[0]] + a[1..] && b == [b[0]] + b[1..];
    }
  }

  lemma {:induction false} StrLeTransitive(a: string, b: string, c: string)
    requires StrLe(a, b) && StrLe(b, c)
    ensures StrLe(a, c)
  {
    if a != [] && b != [] && c != [] && a[0] == b[0] && b[0] == c[0] {
      StrLeTransitive(a[1..], b[1..], c[1..]);
    }
  }

  // ---------------------------------------------------------------------
  // Sorting by (city, rating, count)
  // ---------------------------------------------------------------------

  /** The key `(city, rating, count)` of `p` is at most that of `q`, as Python compares tuples. */
  predicate KeyLe(p: Prediction, q: Prediction)
  {
    if p.city != q.city then StrLe(p.city, q.city)
    else if p.rating != q.rating then p.rating < q.rating
    else p.count <= q.count
  }

  lemma KeyLeTotal(p: Prediction, q: Prediction)
    ensures KeyLe(p, q) || KeyLe(q, p)
  {
    StrLeTotal(p.city, q.city);
  }

  lemma KeyLeTransitive(p: Prediction, q: Prediction, r: Prediction)
    requires KeyLe(p, q) && KeyLe(q, r)
    ensures KeyLe(p, r)
  {
    if p.city != q.city && q.city != r.city {
      StrLeTransitive(p.city, q.city, r.city);
      if p.city == r.city {
        StrLeAntisymmetric(p.city, q.city);
      }
    }
  }

  /** Ascending by key. */
  predicate Sorted(s: seq<Prediction>)
  {
    forall i, j :: 0 <= i < j < |s| ==> KeyLe(s[i], s[j])
  }

  /** Inserts `p` before the first element whose key is not below it. */
  function Insert(p: Prediction, s: seq<Prediction>): (r: seq<Prediction>)
    ensures |r| == |s| + 1
    ensures multiset(r) == multiset(s) + multiset{p}
  {
    if s == [] then [p]
    else if KeyLe(p, s[0]) then [p] + s
    else
      assert s == [s[0]] + s[1..];
      [s[0]] + Insert(p, s[1..])
  }

  /** `sorted(..., key=itemgetter('city', 'rating', 'count'))`, a stable sort. */
  function SortByKey(s: seq<Prediction>): (r: seq<Prediction>)
    ensures |r| == |s|
    ensures multiset(r) == multiset(s)
  {
    if s == [] then []
    else
      assert s == [s[0]] + s[1..];
      Insert(s[0], SortByKey(s[1..]))
  }

  lemma {:induction false} InsertSorted(p: Prediction, s: seq<Prediction>)
    requires Sorted(s)
    ensures Sorted(Insert(p, s))
  {
    if s != [] {
      if KeyLe(p, s[0]) {
        forall j | 0 < j < |s| ensures KeyLe(p, s[j]) {
          KeyLeTransitive(p, s[0], s[j]);
        }
      } else {
        KeyLeTotal(p, s[0]);
        InsertSorted(p, s[1..]);
        HeadBelowInsert(p, s);
        var tail := Insert(p, s[1..]);
        var r := [s[0]] + tail;
        forall i, j | 0 <= i < j < |r| ensures KeyLe(r[i], r[j]) {
          if i > 0 {
            assert r[i] == tail[i - 1] && r[j] == tail[j - 1];
          }
        }
      }
    }
  }

  /** The head of a sorted list stays below everything once `p`, above it, is inserted into the rest. */
  lemma HeadBelowInsert(p: Prediction, s: seq<Prediction>)
    requires Sorted(s) && s != [] && KeyLe(s[0], p)
    ensures forall j :: 0 <= j < |Insert(p, s[1..])| ==> KeyLe(s[0], Insert(p, s[1..])[j])
  {
    var tail := Insert(p, s[1..]);
    forall j | 0 <= j < |tail| ensures KeyLe(s[0], tail[j]) {
      assert tail[j] in multiset(tail);
      if tail[j] != p {
        assert tail[j] in multiset(s[1..]);
        var k :| 0 <= k < |s[1..]| && s[1..][k] == tail[j];
        assert s[k + 1] == tail[j];
      }
    }
  }

  /** The sorted list is ascending by (city, rating, count) and a permutation of its input. */
  lemma {:induction false} SortByKeySorted(s: seq<Prediction>)
    ensures Sorted(SortByKey(s))
    ensures multiset(SortByKey(s)) == multiset(s)
  {
    if s != [] {
      SortByKeySorted(s[1..]);
      InsertSorted(s[0], SortByKey(s[1..]));
    }
  }

  // ---------------------------------------------------------------------
  // Candidates and predictions
  // ---------------------------------------------------------------------

  function Flatten(batches: seq<seq<Business>>): seq<Business>
  {
    if batches == [] then [] else batches[0] + Flatten(batches[1..])
  }

  lemma FlattenPrefix(batches: seq<seq<Business>>, k: nat)
    requires 0 < k <= |batches|
    ensures Flatten(batches[..k]) == batches[0] + Flatten(batches[1..][..k - 1])
  {
    assert batches[..k][1..] == batches[1..][..k - 1];
  }

  /**
   * The candidate list after `while len(businesses) < n`: the city's
   * businesses followed by as many of the drawn cities' batches as it takes
   * to reach n. The draws stand for `random.choice(load_cities())`; the
   * source loops forever when they never supply n businesses.
   */
  function Expand(businesses: seq<Business>, draws: seq<seq<Business>>, n: int): (r: seq<Business>)
    requires n <= |businesses| + |Flatten(draws)|
    ensures |r| >= n
    ensures exists k ::
      && 0 <= k <= |draws|
      && r == businesses + Flatten(draws[..k])
      && (forall j :: 0 <= j < k ==> |businesses + Flatten(draws[..j])| < n)
    ensures |businesses| >= n ==> r == businesses
    decreases |draws|
  {
    if |businesses| >= n then
      assert draws[..0] == [];
      businesses
    else
      var r := Expand(businesses + draws[0], draws[1..], n);
      var k :| 0 <= k <= |draws[1..]| && r == businesses + draws[0] + Flatten(draws[1..][..k])
        && (forall j :: 0 <= j < k ==> |businesses + draws[0] + Flatten(draws[1..][..j])| < n);
      FlattenPrefix(draws, k + 1);
      ShortBefore(businesses, draws, n, k);
      r
  }

  /**
   * When `businesses` falls short of n, and so does every extension of
   * `businesses + draws[0]` by fewer than k of the later batches, then every
   * extension of `businesses` by fewer than k + 1 batches falls short of n.
   */
  lemma ShortBefore(businesses: seq<Business>, draws: seq<seq<Business>>, n: int, k: nat)
    requires |businesses| < n && k < |draws|
    requires forall j :: 0 <= j < k ==> |businesses + draws[0] + Flatten(draws[1..][..j])| < n
    ensures forall j :: 0 <= j < k + 1 ==> |businesses + Flatten(draws[..j])| < n
  {
    assert draws[..0] == [];
    forall j | 1 <= j < k + 1 ensures |businesses + Flatten(draws[..j])| < n {
      FlattenPrefix(draws, j);
    }
  }

  /** The prediction record for one candidate (the city is lower-cased). */
  function Predicted(m: UtilityMatrix, s: SimilarityMatrix, userId: UserId, b: Business): Prediction
  {
    Prediction(b.businessId, b.reviewCount, b.stars, Lower(b.city),
      Recommender.PredictRating(m, s, userId, b.businessId))
  }

  /** How many candidates carry the id `id`. */
  function Occurrences(candidates: seq<Business>, id: BusinessId): nat
  {
    if candidates == [] then 0
    else
      var here := if candidates[|candidates| - 1].businessId == id then 1 else 0;
      Occurrences(candidates[..|candidates| - 1], id) + here
  }

  /**
   * `prediction_list`: one prediction per candidate, in candidate order,
   * skipping every candidate whose id is the excluded one.
   */
  function PredictionsFor(m: UtilityMatrix, s: SimilarityMatrix, userId: UserId, excluded: BusinessId, candidates: seq<Business>): (ps: seq<Prediction>)
    ensures |ps| == |candidates| - Occurrences(candidates, excluded)
    ensures forall i :: 0 <= i < |ps| ==> ps[i].id != excluded
  {
    if candidates == [] then []
    else
      var init := candidates[..|candidates| - 1];
      var last := candidates[|candidates| - 1];
      var rest := PredictionsFor(m, s, userId, excluded, init);
      if last.businessId == excluded then rest
      else rest + [Predicted(m, s, userId, last)]
  }

  /** A single candidate gives its own prediction, or nothing when it is the excluded business. */
  lemma PredictionsForOne(m: UtilityMatrix, s: SimilarityMatrix, userId: UserId, excluded: BusinessId, c: Business)
    ensures PredictionsFor(m, s, userId, excluded, [c]) == if c.businessId == excluded then [] else [Predicted(m, s, userId, c)]
  {
    assert [c][..0] == [];
  }

  /**
   * The loop handles the candidates one after another: the predictions of
   * two runs of candidates are those of the first run followed by those of
   * the second. With PredictionsForOne this fixes the list entry by entry:
   * one prediction per kept candidate, in candidate order, repeated
   * candidates included.
   */
  lemma {:induction false} PredictionsForAppend(m: UtilityMatrix, s: SimilarityMatrix, userId: UserId, excluded: BusinessId,
                                                xs: seq<Business>, ys: seq<Business>)
    ensures PredictionsFor(m, s, userId, excluded, xs + ys)
      == PredictionsFor(m, s, userId, excluded, xs) + PredictionsFor(m, s, userId, excluded, ys)
    decreases |ys|
  {
    if ys == [] {
      assert xs + ys == xs;
    } else {
      var init := ys[..|ys| - 1];
      var y := ys[|ys| - 1];
      PredictionsForAppend(m, s, userId, excluded, xs, init);
      assert (xs + ys)[..|xs + ys| - 1] == xs + init;
      PredictionsForLast(m, s, userId, excluded, xs + ys, y);
      PredictionsForLast(m, s, userId, excluded, ys, y);
    }
  }

  /** Unfolds PredictionsFor once at the last candidate. */
  lemma PredictionsForLast(m: UtilityMatrix, s: SimilarityMatrix, userId: UserId, excluded: BusinessId, cs: seq<Business>, c: Business)
    requires cs != [] && cs[|cs| - 1] == c
    ensures PredictionsFor(m, s, userId, excluded, cs)
      == PredictionsFor(m, s, userId, excluded, cs[..|cs| - 1]) + if c.businessId == excluded then [] else [Predicted(m, s, userId, c)]
  {
  }

  /**
   * The predictions are exactly those of the candidates that are not the
   * excluded business: each comes from some candidate, and every such
   * candidate has its prediction in the list.
   */
  lemma {:induction false} PredictionsForMembers(m: UtilityMatrix, s: SimilarityMatrix, userId: UserId, excluded: BusinessId, candidates: seq<Business>)
    ensures var ps := PredictionsFor(m, s, userId, excluded, candidates);
      && (forall i :: 0 <= i < |ps| ==>
            exists j :: 0 <= j < |candidates| && ps[i] == Predicted(m, s, userId, candidates[j]))
      && (forall j :: 0 <= j < |candidates| && candidates[j].businessId != excluded ==>
            Predicted(m, s, userId, candidates[j]) in ps)
  {
    PredictionsFromCandidates(m, s, userId, excluded, candidates);
    PredictionsCoverCandidates(m, s, userId, excluded, candidates);
    var ps := PredictionsFor(m, s, userId, excluded, candidates);
    forall i | 0 <= i < |ps|
      ensures exists j :: 0 <= j < |candidates| && ps[i] == Predicted(m, s, userId, candidates[j])
    {
      assert FromCandidate(m, s, userId, candidates, ps[i]);
    }
  }

  /** `p` is the prediction record of one of the candidates. */
  ghost predicate FromCandidate(m: UtilityMatrix, s: SimilarityMatrix, userId: UserId, candidates: seq<Business>, p: Prediction)
  {
    exists j :: 0 <= j < |candidates| && p == Predicted(m, s, userId, candidates[j])
  }

  lemma {:induction false} PredictionsFromCandidates(m: UtilityMatrix, s: SimilarityMatrix, userId: UserId, excluded: BusinessId, candidates: seq<Business>)
    ensures forall i :: 0 <= i < |PredictionsFor(m, s, userId, excluded, candidates)| ==>
      FromCandidate(m, s, userId, candidates, PredictionsFor(m, s, userId, excluded, candidates)[i])
  {
    if candidates != [] {
      var init := candidates[..|candidates| - 1];
      var last := candidates[|candidates| - 1];
      var rest := PredictionsFor(m, s, userId, excluded, init);
      var ps := PredictionsFor(m, s, userId, excluded, candidates);
      PredictionsFromCandidates(m, s, userId, excluded, init);
      assert ps == if last.businessId == excluded then rest else rest + [Predicted(m, s, userId, last)];
      forall i | 0 <= i < |ps| ensures FromCandidate(m, s, userId, candidates, ps[i]) {
        if i < |rest| {
          assert FromCandidate(m, s, userId, init, rest[i]);
          var j :| 0 <= j < |init| && rest[i] == Predicted(m, s, userId, init[j]);
          assert candidates[j] == init[j];
        } else {
          assert ps[i] == Predicted(m, s, userId, candidates[|candidates| - 1]);
        }
      }
    }
  }

  lemma {:induction false} PredictionsCoverCandidates(m: UtilityMatrix, s: SimilarityMatrix, userId: UserId, excluded: BusinessId, candidates: seq<Business>)
    ensures var ps := PredictionsFor(m, s, userId, excluded, candidates);
      forall j :: 0 <= j < |candidates| && candidates[j].businessId != excluded ==> Predicted(m, s, userId, candidates[j]) in ps
  {
    if candidates != [] {
      var init := candidates[..|candidates| - 1];
      var last := candidates[|candidates| - 1];
      var rest := PredictionsFor(m, s, userId, excluded, init);
      var ps := PredictionsFor(m, s, userId, excluded, candidates);
      PredictionsCoverCandidates(m, s, userId, excluded, init);
      assert ps == if last.businessId == excluded then rest else rest + [Predicted(m, s, userId, last)];
      forall j | 0 <= j < |candidates| && candidates[j].businessId != excluded
        ensures Predicted(m, s, userId, candidates[j]) in ps
      {
        if j < |init| {
          assert candidates[j] == init[j];
        }
      }
    }
  }

  /** The first n of the sorted predictions (`sorted_list[:n]`). */
  function Ranked(m: UtilityMatrix, s: SimilarityMatrix, userId: UserId, excluded: BusinessId, n: int, candidates: seq<Business>): seq<Prediction>
  {
    Prefix(SortByKey(PredictionsFor(m, s, userId, excluded, candidates)), n)
  }

  /** The display record of a ranked prediction. */
  function Display(p: Prediction, details: (string, BusinessId) -> Details): Recommendation
  {
    var d := details(p.city, p.id);
    Recommendation(p.id, p.avg, d.name, p.city, d.address)
  }

  /** The sorted predictions and the ranked prefix, with its length. */
  lemma RankedLength(m: UtilityMatrix, s: SimilarityMatrix, userId: UserId, excluded: BusinessId, n: int, candidates: seq<Business>)
    ensures var ranked := Ranked(m, s, userId, excluded, n, candidates);
      var sorted := SortByKey(PredictionsFor(m, s, userId, excluded, candidates));
      var kept := |candidates| - Occurrences(candidates, excluded);
      && |sorted| == kept
      && ranked == sorted[..|ranked|]
      && (n >= 0 ==> |ranked| == if n <= kept then n else kept)
      && (n < 0 ==> |ranked| == if kept + n >= 0 then kept + n else 0)
  {
  }

  /**
   * The ranked list is ascending by (city, rating, count), and it holds the
   * lowest keys of all predictions: nothing left out sorts before it.
   */
  lemma RankedSorted(m: UtilityMatrix, s: SimilarityMatrix, userId: UserId, excluded: BusinessId, n: int, candidates: seq<Business>)
    ensures var ranked := Ranked(m, s, userId, excluded, n, candidates);
      var sorted := SortByKey(PredictionsFor(m, s, userId, excluded, candidates));
      && Sorted(ranked)
      && (forall i, j :: 0 <= i < |ranked| <= j < |sorted| ==> KeyLe(ranked[i], sorted[j]))
  {
    var ps := PredictionsFor(m, s, userId, excluded, candidates);
    SortByKeySorted(ps);
    RankedLength(m, s, userId, excluded, n, candidates);
  }

  /** No ranked prediction is for the excluded business, and every city is lower case. */
  lemma RankedMembers(m: UtilityMatrix, s: SimilarityMatrix, userId: UserId, excluded: BusinessId, n: int, candidates: seq<Business>)
    ensures var ranked := Ranked(m, s, userId, excluded, n, candidates);
      && (forall i :: 0 <= i < |ranked| ==> ranked[i].id != excluded)
      && (forall i, k :: 0 <= i < |ranked| && 0 <= k < |ranked[i].city| ==> !IsUpper(ranked[i].city[k]))
  {
    var ps := PredictionsFor(m, s, userId, excluded, candidates);
    var sorted := SortByKey(ps);
    var ranked := Ranked(m, s, userId, excluded, n, candidates);
    RankedLength(m, s, userId, excluded, n, candidates);
    PredictionsFromCandidates(m, s, userId, excluded, candidates);
    forall i | 0 <= i < |ranked|
      ensures ranked[i].id != excluded
      ensures forall k :: 0 <= k < |ranked[i].city| ==> !IsUpper(ranked[i].city[k])
    {
      assert ranked[i] == sorted[i];
      assert sorted[i] in multiset(ps);
      var t :| 0 <= t < |ps| && ps[t] == sorted[i];
      assert FromCandidate(m, s, userId, candidates, ps[t]);
      var j :| 0 <= j < |candidates| && ps[t] == Predicted(m, s, userId, candidates[j]);
      LowerCase(candidates[j].city);
    }
  }

  /** Lower-casing leaves no upper-case letter. */
  lemma LowerCase(city: string)
    ensures forall k :: 0 <= k < |Lower(city)| ==> !IsUpper(Lower(city)[k])
  {
  }

  /** `while len(businesses) < n`: extend the candidates with the next drawn city's businesses. */
  method GatherCandidates(cityBusinesses: seq<Business>, draws: seq<seq<Business>>, n: int)
    returns (businesses: seq<Business>)
    requires n <= |cityBusinesses| + |Flatten(draws)|
    ensures businesses == Expand(cityBusinesses, draws, n)
    ensures |businesses| >= n
  {
    businesses := cityBusinesses;
    var k := 0;
    while |businesses| < n
      invariant 0 <= k <= |draws|
      invariant n <= |businesses| + |Flatten(draws[k..])|
      invariant Expand(businesses, draws[k..], n) == Expand(cityBusinesses, draws, n)
      decreases |draws| - k
    {
      assert draws[k..] != [];
      assert draws[k..][1..] == draws[k + 1..];
      businesses := businesses + draws[k];
      k := k + 1;
    }
  }

  /** The `for business in businesses` loop that fills `prediction_list`. */
  method PredictCandidates(m: UtilityMatrix, s: SimilarityMatrix, userId: UserId, excluded: BusinessId, businesses: seq<Business>)
    returns (predictionList: seq<Prediction>)
    ensures predictionList == PredictionsFor(m, s, userId, excluded, businesses)
  {
    predictionList := [];
    var i := 0;
    while i < |businesses|
      invariant 0 <= i <= |businesses|
      invariant predictionList == PredictionsFor(m, s, userId, excluded, businesses[..i])
    {
      var business := businesses[i];
      assert businesses[..i + 1][..i] == businesses[..i];
      if business.businessId != excluded {
        var prediction := Prediction(business.businessId, business.reviewCount, business.stars, Lower(business.city),
          Recommender.PredictRating(m, s, userId, business.businessId));
        predictionList := predictionList + [prediction];
      }
      i := i + 1;
    }
    assert businesses[..i] == businesses;
  }

  /** The loop that turns each ranked prediction into its display record. */
  method Project(top: seq<Prediction>, details: (string, BusinessId) -> Details) returns (result: seq<Recommendation>)
    ensures |result| == |top|
    ensures forall t :: 0 <= t < |top| ==> result[t] == Display(top[t], details)
  {
    result := [];
    var j := 0;
    while j < |top|
      invariant 0 <= j <= |top|
      invariant |result| == j
      invariant forall t :: 0 <= t < j ==> result[t] == Display(top[t], details)
    {
      var prediction := top[j];
      var business := details(prediction.city, prediction.id);
      result := result + [Recommendation(prediction.id, prediction.avg, business.name, prediction.city, business.address)];
      j := j + 1;
    }
  }

  /**
   * The ranking part of `recommend`. The city's businesses and the batches
   * of the randomly drawn cities are inputs, and so is the business lookup
   * that supplies name and address.
   */
  method Recommend(m: UtilityMatrix, s: SimilarityMatrix, user: User, excluded: BusinessId, n: int,
                   cityBusinesses: seq<Business>, draws: seq<seq<Business>>,
                   details: (string, BusinessId) -> Details)
    returns (result: seq<Recommendation>)
    requires n <= |cityBusinesses| + |Flatten(draws)|
    ensures var candidates := Expand(cityBusinesses, draws, n);
      var ranked := Ranked(m, s, user.userId, excluded, n, candidates);
      && |result| == |ranked|
      && (forall i :: 0 <= i < |result| ==> result[i] == Display(ranked[i], details))
      && (n >= 0 ==> |result| <= n)
      && (n >= 0 && Occurrences(candidates, excluded) == 0 ==> |result| == n)
    ensures forall i :: 0 <= i < |result| ==> result[i].businessId != excluded
    ensures forall i, k :: 0 <= i < |result| && 0 <= k < |result[i].city| ==> !IsUpper(result[i].city[k])
  {
    var businesses := GatherCandidates(cityBusinesses, draws, n);
    var predictionList := PredictCandidates(m, s, user.userId, excluded, businesses);
    var sortedList := SortByKey(predictionList);
    var top := Prefix(sortedList, n);
    assert top == Ranked(m, s, user.userId, excluded, n, businesses);

    result := Project(top, details);
    RankedLength(m, s, user.userId, excluded, n, businesses);
    RankedMembers(m, s, user.userId, excluded, n, businesses);
  }
}
