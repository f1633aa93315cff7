/**
 * The offline evaluation harness: the cohort of users with more than 50
 * ratings, the per-user train/test split, the rebuilt train-only utility
 * matrix, and the precision and error arithmetic of the top-5 test.
 */
module Evaluation {
  import opened Matrices

  /** One entry of a Series of per-user ratings: the user and its ratings by business. */
  datatype UserRatings = UserRatings(user: UserId, ratings: map<BusinessId, real>)

  /** A user enters the cohort with strictly more than this many ratings. */
  const MinRatings: nat := 50

  /** The default `test_size` of the split. */
  const TestSize: nat := 25

  /** The users of a Series of per-user ratings, in order. */
  function Users(rs: seq<UserRatings>): seq<UserId>
  {
    seq(|rs|, i requires 0 <= i < |rs| => rs[i].user)
  }

  predicate Eligible(m: UtilityMatrix, user: UserId)
  {
    |Rated(m, user)| > MinRatings
  }

  // ---------------------------------------------------------------------
  // The cohort of the main block
  // ---------------------------------------------------------------------

  /** The cohort drawn from the columns `users`, in column order. */
  function CohortOf(m: UtilityMatrix, users: seq<UserId>): seq<UserRatings>
  {
    if users == [] then []
    else
      var init := users[..|users| - 1];
      var user := users[|users| - 1];
      CohortOf(m, init) + if Eligible(m, user) then [UserRatings(user, Column(m, user))] else []
  }

  /** The cohort holds exactly the eligible users, each with its own column of ratings. */
  lemma CohortOfSpec(m: UtilityMatrix, users: seq<UserId>)
    ensures forall u :: u in Users(CohortOf(m, users)) <==> u in users && Eligible(m, u)
    ensures forall i :: 0 <= i < |CohortOf(m, users)| ==>
      CohortOf(m, users)[i].ratings == Column(m, CohortOf(m, users)[i].user) && Eligible(m, CohortOf(m, users)[i].user)
  {
    CohortOfUsers(m, users);
    CohortOfRatings(m, users);
  }

  lemma {:induction false} CohortOfUsers(m: UtilityMatrix, users: seq<UserId>)
    ensures forall u :: u in Users(CohortOf(m, users)) <==> u in users && Eligible(m, u)
  {
    if users != [] {
      var init := users[..|users| - 1];
      var user := users[|users| - 1];
      CohortOfUsers(m, init);
      var rest := CohortOf(m, init);
      assert users == init + [user];
      var extra := if Eligible(m, user) then [UserRatings(user, Column(m, user))] else [];
      assert CohortOf(m, users) == rest + extra;
      assert Users(rest + extra) == Users(rest) + Users(extra);
      assert forall u :: u in users <==> u in init || u == user;
      if Eligible(m, user) {
        assert Users(extra) == [user];
      } else {
        assert Users(extra) == [];
      }
    }
  }

  lemma {:induction false} CohortOfRatings(m: UtilityMatrix, users: seq<UserId>)
    ensures forall i :: 0 <= i < |CohortOf(m, users)| ==>
      CohortOf(m, users)[i].ratings == Column(m, CohortOf(m, users)[i].user) && Eligible(m, CohortOf(m, users)[i].user)
  {
    if users != [] {
      var init := users[..|users| - 1];
      var user := users[|users| - 1];
      CohortOfRatings(m, init);
      var rest := CohortOf(m, init);
      var c := CohortOf(m, users);
      forall i | 0 <= i < |c| ensures c[i].ratings == Column(m, c[i].user) && Eligible(m, c[i].user) {
        if i < |rest| {
          assert c[i] == rest[i];
        } else {
          assert c[i] == UserRatings(user, Column(m, user)) && Eligible(m, user);
        }
      }
    }
  }

  /** The loop over `data.UTILITY` that keeps every user with more than 50 ratings. */
  method Cohort(m: UtilityMatrix) returns (userRatings: seq<UserRatings>)
    ensures userRatings == CohortOf(m, m.users)
    ensures forall u :: u in Users(userRatings) <==> u in m.users && Eligible(m, u)
  {
    userRatings := [];
    for i := 0 to |m.users|
      invariant userRatings == CohortOf(m, m.users[..i])
    {
      var column := m.users[i];
      var ur := Column(m, column);
      assert m.users[..i + 1][..i] == m.users[..i];
      if |Rated(m, column)| > MinRatings {
        userRatings := userRatings + [UserRatings(column, ur)];
      }
    }
    assert m.users[..|m.users|] == m.users;
    CohortOfSpec(m, m.users);
  }

  // ---------------------------------------------------------------------
  // split_train_test
  // ---------------------------------------------------------------------

  /** `chosen[user]` is a draw `np.random.choice` can make: testSize distinct rated businesses. */
  predicate ValidDraw(r: UserRatings, chosen: map<UserId, set<BusinessId>>, testSize: nat)
  {
    r.user in chosen && chosen[r.user] <= r.ratings.Keys && |chosen[r.user]| == testSize
  }

  /** `train` and `test` split `all`: disjoint, together exactly `all`, with unchanged ratings. */
  ghost predicate Partition(all: map<BusinessId, real>, train: map<BusinessId, real>, test: map<BusinessId, real>)
  {
    && train.Keys !! test.Keys
    && train.Keys + test.Keys == all.Keys
    && (forall b :: b in train ==> train[b] == all[b])
    && (forall b :: b in test ==> test[b] == all[b])
  }

  /**
   * split_train_test: per user, the drawn businesses form the test part and
   * the rest the train part. The random draw is the input `chosen`.
   */
  method SplitTrainTest(userRatings: seq<UserRatings>, chosen: map<UserId, set<BusinessId>>, testSize: nat)
    returns (train: seq<UserRatings>, test: seq<UserRatings>)
    requires forall i :: 0 <= i < |userRatings| ==> ValidDraw(userRatings[i], chosen, testSize)
    ensures |train| == |userRatings| && |test| == |userRatings|
    ensures Users(train) == Users(userRatings) && Users(test) == Users(userRatings)
    ensures forall i :: 0 <= i < |userRatings| ==> SplitEntry(userRatings[i], chosen, testSize, train[i], test[i])
  {
    train, test := [], [];
    for i := 0 to |userRatings|
      invariant |train| == i && |test| == i
      invariant SplitAll(userRatings[..i], chosen, testSize, train, test)
    {
      var trainEntry, testEntry := SplitUser(userRatings[i], chosen, testSize);
      assert userRatings[..i + 1][..i] == userRatings[..i];
      AppendSplit(userRatings[..i + 1], chosen, testSize, train, test, trainEntry, testEntry);
      train := train + [trainEntry];
      test := test + [testEntry];
    }
    assert userRatings[..|userRatings|] == userRatings;
    SameUsers(train, userRatings);
    SameUsers(test, userRatings);
  }

  /** Every entry of `userRatings` is split into the entries of `train` and `test` at its index. */
  ghost predicate SplitAll(userRatings: seq<UserRatings>, chosen: map<UserId, set<BusinessId>>, testSize: nat,
                           train: seq<UserRatings>, test: seq<UserRatings>)
  {
    && |train| == |userRatings| && |test| == |userRatings|
    && forall j :: 0 <= j < |userRatings| ==> SplitEntry(userRatings[j], chosen, testSize, train[j], test[j])
  }

  lemma AppendSplit(userRatings: seq<UserRatings>, chosen: map<UserId, set<BusinessId>>, testSize: nat,
                    train: seq<UserRatings>, test: seq<UserRatings>, trainEntry: UserRatings, testEntry: UserRatings)
    requires userRatings != []
    requires SplitAll(userRatings[..|userRatings| - 1], chosen, testSize, train, test)
    requires SplitEntry(userRatings[|userRatings| - 1], chosen, testSize, trainEntry, testEntry)
    ensures SplitAll(userRatings, chosen, testSize, train + [trainEntry], test + [testEntry])
  {
    var n := |userRatings| - 1;
    forall j | 0 <= j < |userRatings|
      ensures SplitEntry(userRatings[j], chosen, testSize, (train + [trainEntry])[j], (test + [testEntry])[j])
    {
      if j < n {
        assert userRatings[..n][j] == userRatings[j];
        assert SplitEntry(userRatings[..n][j], chosen, testSize, train[j], test[j]);
        assert (train + [trainEntry])[j] == train[j] && (test + [testEntry])[j] == test[j];
      } else {
        assert (train + [trainEntry])[j] == trainEntry && (test + [testEntry])[j] == testEntry;
      }
    }
  }

  lemma SameUsers(a: seq<UserRatings>, b: seq<UserRatings>)
    requires |a| == |b| && forall i :: 0 <= i < |a| ==> a[i].user == b[i].user
    ensures Users(a) == Users(b)
  {
  }

  /**
   * One user's split: both parts keep the user, they partition its ratings,
   * and the test part holds exactly the `testSize` drawn businesses.
   */
  ghost predicate SplitEntry(r: UserRatings, chosen: map<UserId, set<BusinessId>>, testSize: nat,
                             trainEntry: UserRatings, testEntry: UserRatings)
  {
    && trainEntry.user == r.user && testEntry.user == r.user
    && Partition(r.ratings, trainEntry.ratings, testEntry.ratings)
    && r.user in chosen && testEntry.ratings.Keys == chosen[r.user]
    && |testEntry.ratings| == testSize
  }

  /** The masks of one user: the drawn businesses go to the test part, the others to the train part. */
  method SplitUser(r: UserRatings, chosen: map<UserId, set<BusinessId>>, testSize: nat)
    returns (trainEntry: UserRatings, testEntry: UserRatings)
    requires ValidDraw(r, chosen, testSize)
    ensures SplitEntry(r, chosen, testSize, trainEntry, testEntry)
  {
    var randIndex := chosen[r.user];
    var trainPart := map b | b in r.ratings && b !in randIndex :: r.ratings[b];
    var testPart := map b | b in r.ratings && b in randIndex :: r.ratings[b];
    assert testPart.Keys == randIndex;
    trainEntry, testEntry := UserRatings(r.user, trainPart), UserRatings(r.user, testPart);
  }

  // ---------------------------------------------------------------------
  // build_utility_matrix
  // ---------------------------------------------------------------------

  /** The cells of one user's ratings. */
  function UserCells(r: UserRatings): map<(UserId, BusinessId), real>
  {
    map b | b in r.ratings :: (r.user, b) := r.ratings[b]
  }

  /** The cells written by the nested loops, a later user overwriting an earlier one. */
  function Cells(rs: seq<UserRatings>): map<(UserId, BusinessId), real>
  {
    if rs == [] then map[]
    else Cells(rs[..|rs| - 1]) + UserCells(rs[|rs| - 1])
  }

  /**
   * A cell is present exactly when some entry rates that business for that
   * user, and its value is that entry's rating; when the users are distinct
   * the value is the user's own rating.
   */
  lemma {:induction false} CellsSpec(rs: seq<UserRatings>)
    ensures forall u, b :: (u, b) in Cells(rs) <==>
      exists i :: 0 <= i < |rs| && rs[i].user == u && b in rs[i].ratings
    ensures forall u, b :: (u, b) in Cells(rs) ==>
      exists i :: 0 <= i < |rs| && rs[i].user == u && b in rs[i].ratings && Cells(rs)[(u, b)] == rs[i].ratings[b]
  {
    if rs != [] {
      var init := rs[..|rs| - 1];
      CellsSpec(init);
      forall i | 0 <= i < |init| ensures init[i] == rs[i] { }
    }
  }

  lemma DistinctCells(rs: seq<UserRatings>, i: int, b: BusinessId)
    requires 0 <= i < |rs| && b in rs[i].ratings
    requires forall j, k :: 0 <= j < k < |rs| ==> rs[j].user != rs[k].user
    ensures (rs[i].user, b) in Cells(rs) && Cells(rs)[(rs[i].user, b)] == rs[i].ratings[b]
  {
    CellsSpec(rs);
  }

  /**
   * build_utility_matrix: a matrix over the given users and businesses whose
   * only non-missing cells are the training ratings.
   */
  method BuildUtilityMatrix(userRatings: seq<UserRatings>, businessIds: seq<BusinessId>) returns (m: UtilityMatrix)
    ensures m.users == Users(userRatings) && m.items == businessIds
    ensures m.rating == Cells(userRatings)
    ensures forall u, b :: (u, b) in m.rating <==>
      exists i :: 0 <= i < |userRatings| && userRatings[i].user == u && b in userRatings[i].ratings
  {
    var rating: map<(UserId, BusinessId), real> := map[];
    for i := 0 to |userRatings|
      invariant rating == Cells(userRatings[..i])
    {
      rating := WriteUser(rating, userRatings[i]);
      assert userRatings[..i + 1][..i] == userRatings[..i];
    }
    assert userRatings[..|userRatings|] == userRatings;
    m := UtilityMatrix(Users(userRatings), businessIds, rating);
    CellsSpec(userRatings);
  }

  /** The inner loop of build_utility_matrix: one user's ratings written into the frame. */
  method WriteUser(rating: map<(UserId, BusinessId), real>, r: UserRatings) returns (written: map<(UserId, BusinessId), real>)
    ensures written == rating + UserCells(r)
  {
    written := rating;
    var todo := r.ratings.Keys;
    assert WrittenCells(r, todo) == map[];
    while todo != {}
      invariant todo <= r.ratings.Keys
      invariant written == rating + WrittenCells(r, todo)
      decreases todo
    {
      var business :| business in todo;
      WriteStep(rating, r, todo, business);
      written := written[(r.user, business) := r.ratings[business]];
      todo := todo - {business};
    }
  }

  /** The cells of `r` written so far, when the businesses in `todo` are still to come. */
  function WrittenCells(r: UserRatings, todo: set<BusinessId>): map<(UserId, BusinessId), real>
  {
    map b | b in r.ratings && b !in todo :: (r.user, b) := r.ratings[b]
  }

  lemma WriteStep(rating: map<(UserId, BusinessId), real>, r: UserRatings, todo: set<BusinessId>, business: BusinessId)
    requires business in todo && todo <= r.ratings.Keys
    ensures rating + WrittenCells(r, todo - {business})
      == (rating + WrittenCells(r, todo))[(r.user, business) := r.ratings[business]]
  {
  }

  // ---------------------------------------------------------------------
  // The main block: cohort, split and rebuild
  // ---------------------------------------------------------------------

  datatype Outcome =
    | EmptyCohort
    | Evaluated(train: seq<UserRatings>, test: seq<UserRatings>, utility: UtilityMatrix)

  /**
   * The main block up to the rebuilt matrix: an empty cohort stops (exit 0)
   * before any split; otherwise every cohort user is split with the draw
   * `chosen` and the train-only matrix is rebuilt over the same businesses.
   */
  method RunTests(m: UtilityMatrix, chosen: map<UserId, set<BusinessId>>) returns (outcome: Outcome)
    requires forall u :: u in m.users && Eligible(m, u) ==>
      u in chosen && chosen[u] <= Column(m, u).Keys && |chosen[u]| == TestSize
    ensures outcome.EmptyCohort? <==> forall u :: u in m.users ==> !Eligible(m, u)
    ensures outcome.Evaluated? ==>
      && Users(outcome.train) == Users(outcome.test)
      && (forall u :: u in Users(outcome.test) <==> u in m.users && Eligible(m, u))
      && outcome.utility.items == m.items
      && (forall u, b :: (u, b) in outcome.utility.rating <==>
            u in m.users && Eligible(m, u) && b in m.items && (u, b) in m.rating && b !in chosen[u])
      && (forall u, b :: (u, b) in outcome.utility.rating ==> outcome.utility.rating[(u, b)] == m.rating[(u, b)])
  {
    var userRatings := Cohort(m);
    if |userRatings| == 0 {
      return EmptyCohort;
    }
    CohortOfSpec(m, m.users);
    assert Users(userRatings)[0] == userRatings[0].user;
    forall i | 0 <= i < |userRatings| ensures ValidDraw(userRatings[i], chosen, TestSize) {
      assert Users(userRatings)[i] == userRatings[i].user;
    }
    var train, test := SplitTrainTest(userRatings, chosen, TestSize);
    var utility := BuildUtilityMatrix(train, m.items);
    outcome := Evaluated(train, test, utility);
    SplitKeepsTrain(userRatings, chosen, train, test);
    forall u, b | (u, b) in utility.rating
      ensures u in m.users && Eligible(m, u) && b in m.items && (u, b) in m.rating && b !in chosen[u]
      ensures utility.rating[(u, b)] == m.rating[(u, b)]
    {
      RebuiltCellSound(m, chosen, userRatings, train, u, b);
    }
    forall u, b | u in m.users && Eligible(m, u) && b in m.items && (u, b) in m.rating && b !in chosen[u]
      ensures (u, b) in utility.rating
    {
      RebuiltCellComplete(m, chosen, userRatings, train, u, b);
    }
  }

  /** `train` keeps, per entry of `userRatings`, the ratings not drawn into the test part. */
  ghost predicate TrainOf(userRatings: seq<UserRatings>, chosen: map<UserId, set<BusinessId>>, train: seq<UserRatings>)
  {
    && |train| == |userRatings|
    && forall i :: 0 <= i < |train| ==>
      && train[i].user == userRatings[i].user
      && userRatings[i].user in chosen
      && train[i].ratings.Keys == userRatings[i].ratings.Keys - chosen[userRatings[i].user]
      && (forall b :: b in train[i].ratings ==> train[i].ratings[b] == userRatings[i].ratings[b])
  }

  /** The train part of a split keeps exactly the ratings that were not drawn. */
  lemma SplitKeepsTrain(userRatings: seq<UserRatings>, chosen: map<UserId, set<BusinessId>>,
                        train: seq<UserRatings>, test: seq<UserRatings>)
    requires |train| == |userRatings| && |test| == |userRatings|
    requires forall i :: 0 <= i < |userRatings| ==> SplitEntry(userRatings[i], chosen, TestSize, train[i], test[i])
    ensures TrainOf(userRatings, chosen, train)
  {
  }

  /** A cell of the rebuilt matrix is a known rating of an eligible user that was not held out. */
  lemma RebuiltCellSound(m: UtilityMatrix, chosen: map<UserId, set<BusinessId>>,
                         userRatings: seq<UserRatings>, train: seq<UserRatings>, u: UserId, b: BusinessId)
    requires userRatings == CohortOf(m, m.users)
    requires TrainOf(userRatings, chosen, train)
    requires (u, b) in Cells(train)
    ensures u in m.users && Eligible(m, u) && b in m.items && (u, b) in m.rating && u in chosen && b !in chosen[u]
    ensures Cells(train)[(u, b)] == m.rating[(u, b)]
  {
    CellsSpec(train);
    var i :| 0 <= i < |train| && train[i].user == u && b in train[i].ratings && Cells(train)[(u, b)] == train[i].ratings[b];
    var ur := userRatings[i];
    assert ur.user == u && u in chosen;
    assert b in ur.ratings.Keys - chosen[u] && train[i].ratings[b] == ur.ratings[b];
    CohortOfRatings(m, m.users);
    assert ur.ratings == Column(m, u) && Eligible(m, u);
    CohortOfUsers(m, m.users);
    assert Users(userRatings)[i] == u;
  }

  /** Every known rating of an eligible user that was not held out is a cell of the rebuilt matrix. */
  lemma RebuiltCellComplete(m: UtilityMatrix, chosen: map<UserId, set<BusinessId>>,
                            userRatings: seq<UserRatings>, train: seq<UserRatings>, u: UserId, b: BusinessId)
    requires userRatings == CohortOf(m, m.users)
    requires TrainOf(userRatings, chosen, train)
    requires u in m.users && Eligible(m, u) && b in m.items && (u, b) in m.rating && u in chosen && b !in chosen[u]
    ensures (u, b) in Cells(train)
  {
    CohortOfSpec(m, m.users);
    assert u in Users(userRatings);
    var i :| 0 <= i < |userRatings| && Users(userRatings)[i] == u;
    assert userRatings[i].ratings == Column(m, u);
    assert b in train[i].ratings;
    CellsSpec(train);
  }

  // ---------------------------------------------------------------------
  // top_5_test_content: precision@5 and the error metric
  // ---------------------------------------------------------------------

  /**
   * `order` lists the businesses of `values` once each, ascending by value:
   * the index order that `sort_values()` may produce (ties in any order).
   */
  ghost predicate AscendingOrder(order: seq<BusinessId>, values: map<BusinessId, real>)
  {
    && (forall i, j :: 0 <= i < j < |order| ==> order[i] != order[j])
    && (forall b :: b in order <==> b in values)
    && (forall i, j :: 0 <= i < j < |order| ==> values[order[i]] <= values[order[j]])
  }

  /** The businesses of `top` that also appear in `known`, counted with repetition. */
  function Hits(top: seq<BusinessId>, known: seq<BusinessId>): (h: nat)
    ensures h <= |top|
  {
    if top == [] then 0
    else Hits(top[..|top| - 1], known) + (if top[|top| - 1] in known then 1 else 0)
  }

  /** The first `k` entries of every user's order (`[:k]` on each sorted Series). */
  function Tops(orders: seq<seq<BusinessId>>, k: nat): (tops: seq<seq<BusinessId>>)
    ensures |tops| == |orders|
    ensures forall i :: 0 <= i < |orders| ==> |tops[i]| <= k && tops[i] <= orders[i]
    ensures forall i :: 0 <= i < |orders| ==> |tops[i]| == if |orders[i]| < k then |orders[i]| else k
  {
    seq(|orders|, i requires 0 <= i < |orders| => Prefix(orders[i], k))
  }

  /** `correct`: the hits of every user's predicted top list in its known top list. */
  function TotalHits(predicted5: seq<seq<BusinessId>>, knownTop10: seq<seq<BusinessId>>): nat
    requires |predicted5| == |knownTop10|
  {
    if predicted5 == [] then 0
    else
      var last := |predicted5| - 1;
      TotalHits(predicted5[..last], knownTop10[..last]) + Hits(predicted5[last], knownTop10[last])
  }

  /** At most five hits per user, so the precision is at most 1. */
  lemma {:induction false} TotalHitsBound(predicted5: seq<seq<BusinessId>>, knownTop10: seq<seq<BusinessId>>)
    requires |predicted5| == |knownTop10|
    requires forall i :: 0 <= i < |predicted5| ==> |predicted5[i]| <= 5
    ensures TotalHits(predicted5, knownTop10) <= 5 * |predicted5|
  {
    if predicted5 != [] {
      var last := |predicted5| - 1;
      TotalHitsBound(predicted5[..last], knownTop10[..last]);
    }
  }

  function Abs(x: real): real
  {
    if x < 0.0 then -x else x
  }

  /** The sum of |predicted - actual| over the businesses of `order`. */
  function AbsErrorSum(order: seq<BusinessId>, predicted: map<BusinessId, real>, actual: map<BusinessId, real>): real
    requires forall b :: b in order ==> b in predicted && b in actual
  {
    if order == [] then 0.0
    else
      var b := order[|order| - 1];
      AbsErrorSum(order[..|order| - 1], predicted, actual) + Abs(predicted[b] - actual[b])
  }

  /** The test users' predictions exist for test businesses only. */
  ghost predicate PredictionsCover(test: seq<UserRatings>, predicted: seq<map<BusinessId, real>>, predictedOrder: seq<seq<BusinessId>>)
  {
    && |predicted| == |test| && |predictedOrder| == |test|
    && forall i :: 0 <= i < |test| ==>
      predicted[i].Keys <= test[i].ratings.Keys && AscendingOrder(predictedOrder[i], predicted[i])
  }

  /** The error summed over all users. */
  function TotalAbsError(test: seq<UserRatings>, predicted: seq<map<BusinessId, real>>, predictedOrder: seq<seq<BusinessId>>): real
    requires PredictionsCover(test, predicted, predictedOrder)
  {
    if test == [] then 0.0
    else
      var last := |test| - 1;
      assert PredictionsCover(test[..last], predicted[..last], predictedOrder[..last]);
      TotalAbsError(test[..last], predicted[..last], predictedOrder[..last])
        + AbsErrorSum(predictedOrder[last], predicted[last], test[last].ratings)
  }

  /** Every prediction equals the held-out rating. */
  ghost predicate Exact(test: seq<UserRatings>, predicted: seq<map<BusinessId, real>>)
    requires |predicted| == |test|
  {
    forall i, b :: 0 <= i < |test| && b in predicted[i] && b in test[i].ratings ==> predicted[i][b] == test[i].ratings[b]
  }

  lemma {:induction false} AbsErrorSumZero(order: seq<BusinessId>, predicted: map<BusinessId, real>, actual: map<BusinessId, real>)
    requires forall b :: b in order ==> b in predicted && b in actual
    ensures AbsErrorSum(order, predicted, actual) >= 0.0
    ensures (forall b :: b in order ==> predicted[b] == actual[b]) ==> AbsErrorSum(order, predicted, actual) == 0.0
  {
    if order != [] {
      AbsErrorSumZero(order[..|order| - 1], predicted, actual);
    }
  }

  lemma {:induction false} TotalAbsErrorZero(test: seq<UserRatings>, predicted: seq<map<BusinessId, real>>, predictedOrder: seq<seq<BusinessId>>)
    requires PredictionsCover(test, predicted, predictedOrder)
    ensures TotalAbsError(test, predicted, predictedOrder) >= 0.0
    ensures Exact(test, predicted) ==> TotalAbsError(test, predicted, predictedOrder) == 0.0
  {
    if test != [] {
      var last := |test| - 1;
      assert PredictionsCover(test[..last], predicted[..last], predictedOrder[..last]);
      TotalAbsErrorZero(test[..last], predicted[..last], predictedOrder[..last]);
      AbsErrorSumZero(predictedOrder[last], predicted[last], test[last].ratings);
      if Exact(test, predicted) {
        assert Exact(test[..last], predicted[..last]) by {
          forall i, b | 0 <= i < last && b in predicted[..last][i] && b in test[..last][i].ratings
            ensures predicted[..last][i][b] == test[..last][i].ratings[b]
          {
            assert predicted[..last][i] == predicted[i] && test[..last][i] == test[i];
          }
        }
      }
    }
  }

  /**
   * Ascending order puts the lowest values first: every business of the
   * first k has a value no greater than any business after them.
   */
  lemma PrefixHoldsLowest(order: seq<BusinessId>, values: map<BusinessId, real>, k: nat)
    requires AscendingOrder(order, values)
    ensures forall i, j :: 0 <= i < |Prefix(order, k)| <= j < |order| ==> values[Prefix(order, k)[i]] <= values[order[j]]
  {
  }

  /**
   * The precision and error arithmetic of top_5_test_content. The predicted
   * ratings and both sort orders are inputs (`content_prediction` is not part
   * of this model and `sort_values` breaks ties freely): the predicted top 5
   * and the known top 10 are the first 5 and 10 of ascending orders.
   */
  method Top5TestContent(test: seq<UserRatings>, predicted: seq<map<BusinessId, real>>,
                         predictedOrder: seq<seq<BusinessId>>, knownOrder: seq<seq<BusinessId>>)
    returns (precision: real, error: real)
    requires |test| > 0
    requires PredictionsCover(test, predicted, predictedOrder)
    requires |knownOrder| == |test|
    requires forall i :: 0 <= i < |test| ==> AscendingOrder(knownOrder[i], test[i].ratings)
    ensures precision == TotalHits(Tops(predictedOrder, 5), Tops(knownOrder, 10)) as real / (|test| * 5) as real
    ensures 0.0 <= precision <= 1.0
    ensures error == TotalAbsError(test, predicted, predictedOrder) / (|test| * 25) as real
    ensures error >= 0.0
    ensures Exact(test, predicted) ==> error == 0.0
  {
    var knownTop10 := TakeTops(knownOrder, 10);
    var predicted5 := TakeTops(predictedOrder, 5);

    var correct := CountCorrect(predicted5, knownTop10);
    TotalHitsBound(predicted5, knownTop10);
    precision := correct as real / (|predicted5| * 5) as real;
    FractionBounds(correct as real, (|predicted5| * 5) as real);

    var sum := SumAbsError(test, predicted, predictedOrder);
    TotalAbsErrorZero(test, predicted, predictedOrder);
    error := sum / (|predicted| * 25) as real;
    FractionBounds(sum, (|predicted| * 25) as real);
  }

  /** A non-negative numerator over a positive denominator: at least 0, at most 1 when not above it, 0 when 0. */
  lemma FractionBounds(num: real, den: real)
    requires num >= 0.0 && den > 0.0
    ensures 0.0 <= num / den
    ensures num <= den ==> num / den <= 1.0
    ensures num == 0.0 ==> num / den == 0.0
  {
    if num <= den {
      assert num / den * den == num;
    }
  }

  /** The loops building `known_top_10` and `predicted_5`. */
  method TakeTops(orders: seq<seq<BusinessId>>, k: nat) returns (tops: seq<seq<BusinessId>>)
    ensures tops == Tops(orders, k)
  {
    tops := [];
    for i := 0 to |orders|
      invariant tops == Tops(orders[..i], k)
    {
      tops := tops + [Prefix(orders[i], k)];
    }
    assert orders[..|orders|] == orders;
  }

  /** The loop accumulating `correct`. */
  method CountCorrect(predicted5: seq<seq<BusinessId>>, knownTop10: seq<seq<BusinessId>>) returns (correct: nat)
    requires |predicted5| == |knownTop10|
    ensures correct == TotalHits(predicted5, knownTop10)
  {
    correct := 0;
    for i := 0 to |predicted5|
      invariant correct == TotalHits(predicted5[..i], knownTop10[..i])
    {
      var hits := CountHits(predicted5[i], knownTop10[i]);
      assert predicted5[..i + 1][..i] == predicted5[..i];
      assert knownTop10[..i + 1][..i] == knownTop10[..i];
      correct := correct + hits;
    }
    assert predicted5[..|predicted5|] == predicted5 && knownTop10[..|knownTop10|] == knownTop10;
  }

  /** `sum([1 for b in top if b in known])`. */
  method CountHits(top: seq<BusinessId>, known: seq<BusinessId>) returns (hits: nat)
    ensures hits == Hits(top, known)
  {
    hits := 0;
    for j := 0 to |top|
      invariant hits == Hits(top[..j], known)
    {
      assert top[..j + 1][..j] == top[..j];
      if top[j] in known {
        hits := hits + 1;
      }
    }
    assert top[..|top|] == top;
  }

  /** The loop accumulating the absolute errors of every user. */
  method SumAbsError(test: seq<UserRatings>, predicted: seq<map<BusinessId, real>>, predictedOrder: seq<seq<BusinessId>>)
    returns (sum: real)
    requires PredictionsCover(test, predicted, predictedOrder)
    ensures sum == TotalAbsError(test, predicted, predictedOrder)
  {
    sum := 0.0;
    for i := 0 to |test|
      invariant PredictionsCover(test[..i], predicted[..i], predictedOrder[..i])
      invariant sum == TotalAbsError(test[..i], predicted[..i], predictedOrder[..i])
    {
      var userSum := UserAbsError(predictedOrder[i], predicted[i], test[i].ratings);
      assert test[..i + 1][..i] == test[..i];
      assert predicted[..i + 1][..i] == predicted[..i];
      assert predictedOrder[..i + 1][..i] == predictedOrder[..i];
      sum := sum + userSum;
    }
    assert test[..|test|] == test && predicted[..|test|] == predicted && predictedOrder[..|test|] == predictedOrder;
  }

  /** One user's `sum([abs(predicted[b] - actual[b]) for b in order])`. */
  method UserAbsError(order: seq<BusinessId>, predicted: map<BusinessId, real>, actual: map<BusinessId, real>)
    returns (userSum: real)
    requires forall b :: b in order ==> b in predicted && b in actual
    ensures userSum == AbsErrorSum(order, predicted, actual)
  {
    userSum := 0.0;
    for j := 0 to |order|
      invariant userSum == AbsErrorSum(order[..j], predicted, actual)
    {
      assert order[..j + 1][..j] == order[..j];
      userSum := userSum + Abs(predicted[order[j]] - actual[order[j]]);
    }
    assert order[..|order|] == order;
  }
}
