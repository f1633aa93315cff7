/**
 * The data the recommender reads: the utility matrix of known ratings and
 * the item-item similarity matrix. Both are pandas frames in the original
 * program; here a NaN cell is a key that is absent from a map.
 */
module Matrices {
  type UserId = string
  type BusinessId = string

  /** A value that may be missing (a NaN cell or a NaN result). */
  datatype Option<T> = None | Some(value: T)

  /**
   * The utility matrix: one column per user (in column order), one row per
   * business (in index order), and a rating for every cell that is not NaN.
   */
  datatype UtilityMatrix = UtilityMatrix(
    users: seq<UserId>,
    items: seq<BusinessId>,
    rating: map<(UserId, BusinessId), real>)

  /**
   * The similarity matrix: `score[(target, other)]` is the cell in column
   * `target` and row `other`; `items` are its column labels.
   */
  datatype SimilarityMatrix = SimilarityMatrix(
    items: seq<BusinessId>,
    score: map<(BusinessId, BusinessId), real>)

  /** No value occurs twice: a pandas index, or an ordered set. */
  predicate Distinct<T(==)>(s: seq<T>)
  {
    forall i, j :: 0 <= i < j < |s| ==> s[i] != s[j]
  }

  /** The businesses of `items` that `user` has rated, in the order of `items`. */
  function RatedAmong(m: UtilityMatrix, user: UserId, items: seq<BusinessId>): (r: seq<BusinessId>)
    ensures forall b :: b in r <==> b in items && (user, b) in m.rating
    ensures |r| <= |items|
    ensures Distinct(items) ==> Distinct(r)
  {
    if items == [] then []
    else
      var rest := RatedAmong(m, user, items[1..]);
      assert Distinct(items) ==> items[0] !in items[1..];
      if (user, items[0]) in m.rating then [items[0]] + rest else rest
  }

  /** `UTILITY[user].dropna().index`: the businesses the user has rated. */
  function Rated(m: UtilityMatrix, user: UserId): seq<BusinessId>
  {
    RatedAmong(m, user, m.items)
  }

  /** `UTILITY[user].dropna()`: the user's ratings, keyed by business. */
  function Column(m: UtilityMatrix, user: UserId): map<BusinessId, real>
  {
    map b | b in m.items && (user, b) in m.rating :: m.rating[(user, b)]
  }

  /** The set of the values of a sequence without repetitions has one element per entry. */
  lemma {:induction false} DistinctCardinality<T>(s: seq<T>)
    requires Distinct(s)
    ensures |set x | x in s| == |s|
  {
    if s != [] {
      var init := s[..|s| - 1];
      DistinctCardinality(init);
      assert (set x | x in s) == (set x | x in init) + {s[|s| - 1]};
      assert s[|s| - 1] !in init;
    }
  }

  /**
   * Over an index without repeated labels, the number of businesses a user
   * has rated (`ur.size` after `dropna()`) is the number of non-missing cells
   * of the user's column.
   */
  lemma RatedCount(m: UtilityMatrix, user: UserId)
    requires Distinct(m.items)
    ensures |Rated(m, user)| == |Column(m, user).Keys|
  {
    DistinctCardinality(Rated(m, user));
    assert (set x | x in Rated(m, user)) == Column(m, user).Keys;
  }

  /** Python's slice `s[:n]`, which counts from the end when `n` is negative. */
  function Prefix<T>(s: seq<T>, n: int): (r: seq<T>)
    ensures r <= s
    ensures 0 <= n ==> |r| == if n < |s| then n else |s|
    ensures n < 0 ==> |r| == if |s| + n < 0 then 0 else |s| + n
  {
    if n >= 0 then (if n <= |s| then s[..n] else s)
    else if |s| + n >= 0 then s[..|s| + n]
    else []
  }
}
