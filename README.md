# celp recommender — a Dafny model

This project models the core of the celp recommender. The recommender does
item-based collaborative filtering over Yelp-style reviews. It has two parts:

- **Prediction engine** (`recommender.py`):
  - It keeps the neighbourhood of a target business: the businesses the user has
    rated whose similarity to the target is strictly positive.
  - It predicts a rating as the similarity-weighted mean of the user's ratings
    on that neighbourhood, falling back to 0.
  - It measures the mean squared error of a frame of predictions.
  - It fills a `prediction` column row by row, from the weighted mean or from
    the business's mean stars.
  - `recommend` gathers at least `n` candidate businesses, predicts a rating
    for each one except the excluded business, sorts by
    `(city, rating, review_count)` and returns the first `n` as display records.
- **Evaluation harness** (`tests.py`):
  - It keeps the cohort of users with more than 50 ratings.
  - It splits each user's ratings into a train part and a test part of fixed size.
  - It rebuilds a utility matrix from the training ratings alone.
  - It scores precision@5 and an absolute-error metric.

The code and its comments do not always agree. The model follows the code:

- The neighbourhood filter is `scores > 0`: strictly positive. The comment above
  it speaks of dropping scores "lower than 0".
- Every sort is ascending: the `sorted(...)` in `recommend` and both
  `sort_values()` calls in `top_5_test_content`. So `recommend` lists each city's
  lowest-predicted businesses first. The "top 5" and "top 10" of the test are
  the five and ten lowest-valued entries. `Evaluation.PrefixHoldsLowest` states
  this.

Files:

- `matrices.dfy` (module `Matrices`): the two matrices.
  - The utility matrix is a map from `(user, business)` to a rating. An
    absent key is a NaN cell.
  - The similarity matrix is a map from `(target, other)` to a score.
  - Also here: Python's `s[:n]`.
- `recommender.dfy` (module `Recommender`):
  - `select_neighborhood`, `weighted_mean` and `mse`, as functions.
  - `predict` and `baseline_prediction`, as methods of the class
    `ReviewFrame`. The class holds a frame of reviews and the `prediction`
    column, which the methods rewrite in place.
- `ranking.dfy` (module `Ranking`): the candidate, exclude, sort, truncate
  and project logic of `recommend`.
- `evaluation.dfy` (module `Evaluation`):
  - `split_train_test`, `build_utility_matrix` and the main block's cohort
    filter;
  - the precision and error arithmetic of `top_5_test_content`.

Functions and lemmas only read the matrices and cannot change them. So
`select_neighborhood` and `weighted_mean` give the same result on unchanged
matrices, whatever is called in between.

## Model

| member | source | states |
|---|---|---|
| Matrices.RatedAmong | recommender.py:15 | `UTILITY[user].dropna().index`: a business is listed iff it is in the index and the user's cell is not missing; never longer than the index; no business twice when the index has no repeated label |
| Matrices.RatedCount | tests.py:70-71 | over an index without repeated labels, `ur.size` (the length of the rated list) is the number of non-missing cells of the user's column, the count the cohort's `> 50` test compares |
| Matrices.Prefix | recommender.py:138 | Python's `s[:n]` is a prefix of `s` of length min(n, len) for n ≥ 0, and of length max(len + n, 0) for negative n |
| Recommender.Positive | recommender.py:17-19 | every kept business is among the rated ones, has a present similarity strictly above 0 and carries that score; conversely every rated business with such a score is kept (that no business appears twice is stated by PositiveDistinct) |
| Recommender.PositiveDistinct | recommender.py:17-19 | filtering a rated list without repetitions gives a neighbourhood without repetitions |
| Recommender.SelectNeighborhood | recommender.py:9-19 | empty when the user is not a column of the utility matrix or the business not a column of the similarity matrix; otherwise a business is in the neighbourhood iff the user rated it and its similarity to the target is > 0, with the similarity as its value; no business twice when the utility index has no repeated label, so the neighbourhood is an ordered set |
| Recommender.SimilaritySumPositive | recommender.py:28 | the denominator `neighborhood.sum()` is positive for a non-empty neighbourhood (all scores are > 0) |
| Recommender.WeightedSumBounds | recommender.py:26-28 | with every rating in [lo, hi], the numerator Σ rating·sim lies between lo·Σ sim and hi·Σ sim |
| Recommender.WeightedMean | recommender.py:21-28 | `weighted_mean` as a definition: 0 for an empty neighbourhood, else Σ rating·sim / Σ sim; its properties are stated by WeightedMeanBounds and PredictionBounds |
| Recommender.PredictRating | recommender.py:74 | `weighted_mean(select_neighborhood(user, business), user)` as a definition, shared by `predict` and `recommend` (line 132); its properties are stated by PredictionFallback and PredictionBounds |
| Recommender.WeightedMeanBounds | recommender.py:21-28 | for a non-empty neighbourhood the denominator is positive and Σ rating·sim / Σ sim lies between the least and the greatest rating averaged |
| Recommender.PredictionFallback | recommender.py:9-24 | an unknown user, an unknown business or a user without ratings gives the empty neighbourhood and the prediction exactly 0 |
| Recommender.PredictionBounds | recommender.py:21-28 | when all of the user's ratings lie in [lo, hi], a prediction is 0 for an empty neighbourhood and lies in [lo, hi] otherwise |
| Recommender.ExamplePrediction | recommender.py:9-28 | a worked case: ratings 5 and 3 with similarities 0.8 and 0.2 predict 4.6 |
| Recommender.Square | recommender.py:34 | `numpy.square` is non-negative and is 0 exactly for a zero difference |
| Recommender.SquaredErrorSumZero | recommender.py:32-34 | the summed squared error is non-negative and is 0 iff every predicted row equals its stars (NaN predictions are skipped by `sum`) |
| Recommender.Mse | recommender.py:30-34 | `mse` as a definition: the summed squared error over the row count, NaN for an empty frame; its properties are stated by MseProperties |
| Recommender.MseProperties | recommender.py:30-34 | `mse` is NaN (None) exactly for an empty frame; otherwise it is non-negative and is 0 iff every prediction equals the stars |
| Recommender.Unique | recommender.py:42-43 | `unique()` keeps every value of the column, each exactly once |
| Recommender.MatchingRows | recommender.py:54 | the mask `data['business_id'] == business` selects exactly the rows of that business, each once, in increasing row order |
| Recommender.StarsOf | recommender.py:54 | `data.loc[data['business_id'] == business, 'stars']` as a definition; its meaning is stated by StarsOfRows |
| Recommender.StarsOfRows | recommender.py:54 | the selected stars have one entry per matching row, in row order, each that row's stars, so a value occurs as often as the rows carrying it |
| Recommender.SumBounds | recommender.py:54 | a sum of values in [lo, hi] lies between lo·count and hi·count |
| Recommender.MeanBetween | recommender.py:54 | the mean of a non-empty column lies between its least and greatest value |
| Recommender.BusinessMean | recommender.py:54 | `.mean()` of those stars as a definition: their sum over their count; its bound is stated by BusinessMeanBounds |
| Recommender.BusinessMeanBounds | recommender.py:54 | a business's baseline lies between the least and the greatest stars of its rows |
| Recommender.ReviewFrame.constructor | recommender.py:45 | the new `prediction` column is NaN in every row, and the reviews are kept |
| Recommender.ReviewFrame.AssignWhere | recommender.py:76 | the `.loc` write sets exactly the rows matching both the business and the user; every other row keeps its prediction |
| Recommender.ReviewFrame.Predict | recommender.py:59-77 | afterwards every row's prediction is `weighted_mean(select_neighborhood(user, business), user)` for its own user and business; the reviews are unchanged |
| Recommender.ReviewFrame.PredictForBusiness | recommender.py:72-76 | the inner loop gives every row of the business the weighted-mean prediction for its own user and leaves all other rows as they were |
| Recommender.ReviewFrame.BaselineForBusiness | recommender.py:52-56 | the inner loop gives every row of the business the mean stars of that business and leaves all other rows as they were |
| Recommender.ReviewFrame.BaselinePrediction | recommender.py:40-57 | afterwards every row's prediction is the mean stars over the rows with the same business id |
| Ranking.Lower | recommender.py:129 | `lower()` keeps the length, maps each ASCII upper-case letter to its lower-case letter (code point + 32), leaves no upper-case letter and changes no other character |
| Ranking.StrLeTotal | recommender.py:135 | any two cities compare one way or the other |
| Ranking.StrLeAntisymmetric | recommender.py:135 | cities that compare both ways are equal |
| Ranking.StrLeTransitive | recommender.py:135 | string comparison is transitive |
| Ranking.KeyLe | recommender.py:135 | `itemgetter('city', 'rating', 'count')` compared as a tuple: city by string order, then rating, then count; its order properties are stated by KeyLeTotal and KeyLeTransitive |
| Ranking.KeyLeTotal | recommender.py:135 | any two `(city, rating, count)` keys are comparable |
| Ranking.KeyLeTransitive | recommender.py:135 | the tuple order on keys is transitive |
| Ranking.Insert | recommender.py:135 | insertion adds exactly the one element to the multiset |
| Ranking.InsertSorted | recommender.py:135 | inserting into an ascending list keeps it ascending |
| Ranking.SortByKey | recommender.py:135 | the sorted list is a permutation of its input |
| Ranking.SortByKeySorted | recommender.py:135 | the sorted list is ascending by `(city, rating, count)` and a permutation of its input |
| Ranking.Expand | recommender.py:105-109 | the candidate list has at least n entries, is the city's businesses followed by the first k batches of drawn cities, where every shorter prefix of batches still had fewer than n (the loop stops at the first batch that reaches n), and is just the city's businesses when they already number n |
| Ranking.GatherCandidates | recommender.py:105-109 | the `while` loop produces exactly that candidate list, of length at least n |
| Ranking.PredictionsFor | recommender.py:120-133 | the length is the candidate count less the excluded id's occurrences, and no prediction carries the excluded id; that there is one prediction per kept candidate, in candidate order, is stated by PredictionsForOne and PredictionsForAppend |
| Ranking.PredictionsForOne | recommender.py:121-133 | one candidate gives nothing when it is the excluded business, and otherwise exactly its own prediction record |
| Ranking.PredictionsForAppend | recommender.py:120-133 | the predictions of two runs of candidates are those of the first run followed by those of the second, so the list has one entry per kept candidate, in candidate order, repeats included |
| Ranking.PredictionsForMembers | recommender.py:120-133 | every prediction is that of some candidate (id, count, avg, lower-cased city, weighted-mean rating), and every non-excluded candidate's prediction is present |
| Ranking.PredictCandidates | recommender.py:120-133 | the loop builds exactly `prediction_list` |
| Ranking.Ranked | recommender.py:135-138 | `sorted(prediction_list, key=...)[:n]` as a definition; its properties are stated by RankedLength, RankedSorted and RankedMembers |
| Ranking.RankedLength | recommender.py:135-138 | `sorted_list[:n]` is a prefix of the sorted predictions, of length min(n, kept) for n ≥ 0 and Python's negative-slice length otherwise |
| Ranking.RankedSorted | recommender.py:135-138 | the ranked list is ascending, and no prediction left out sorts before one that is kept |
| Ranking.RankedMembers | recommender.py:121-138 | no ranked prediction has the excluded id, and every city in it is lower case |
| Ranking.Project | recommender.py:137-149 | one record per ranked prediction, in order: id, `avg` as stars, the looked-up name and address, the lower-cased city |
| Ranking.Recommend | recommender.py:105-151 | the result is the display record of each of the first n sorted predictions; at most n records when n ≥ 0, exactly n when the excluded id is not among the candidates; never the excluded id; lower-case cities |
| Evaluation.CohortOf | tests.py:68-72 | the cohort as a definition: in column order, each user with more than 50 ratings and its `dropna()` column; its properties are stated by CohortOfUsers and CohortOfRatings |
| Evaluation.CohortOfUsers | tests.py:68-72 | the cohort holds exactly the users with more than 50 non-missing ratings |
| Evaluation.CohortOfRatings | tests.py:69-72 | each cohort entry is its user's `dropna()` column |
| Evaluation.CohortOfSpec | tests.py:68-72 | both of the above |
| Evaluation.Cohort | tests.py:68-72 | the loop over the utility columns builds that cohort, in column order |
| Evaluation.SplitUser | tests.py:12-16 | one user's masks: the test part is exactly the drawn businesses, the train part the rest, disjoint, together all the ratings, values unchanged, test size `test_size` |
| Evaluation.SplitTrainTest | tests.py:8-17 | both returned series have the input's users, in order; per user the parts partition the ratings with unchanged values and the test part holds exactly the `test_size` drawn businesses |
| Evaluation.Cells | tests.py:21-23 | the cells the nested loop writes, later users over earlier ones; its properties are stated by CellsSpec and DistinctCells |
| Evaluation.CellsSpec | tests.py:19-25 | a cell of the rebuilt matrix is present iff some entry rates that business for that user, and holds that entry's rating |
| Evaluation.DistinctCells | tests.py:21-23 | with distinct users, every training rating lands in its own `(user, business)` cell unchanged |
| Evaluation.WriteUser | tests.py:22-23 | the inner loop writes exactly the user's cells over the frame, whatever order the businesses come in |
| Evaluation.BuildUtilityMatrix | tests.py:19-25 | the matrix has the given users and businesses, and its only non-missing cells are the training ratings |
| Evaluation.RebuiltCellSound | tests.py:68-78 | a cell of the rebuilt matrix is an original rating of a cohort user for a business that was not drawn into the test part, with the original value |
| Evaluation.RebuiltCellComplete | tests.py:68-78 | every original rating of a cohort user that was not drawn into the test part is a cell of the rebuilt matrix |
| Evaluation.RunTests | tests.py:66-78 | an empty cohort stops before any split iff no user has more than 50 ratings; otherwise train and test have the cohort's users and the rebuilt matrix holds exactly the cohort's non-held-out ratings, with unchanged values |
| Evaluation.Tops | tests.py:34-40 | each `[:k]` is a prefix of the user's order of length exactly min(k, the order's length) |
| Evaluation.TakeTops | tests.py:34-40 | the loops build exactly `known_top_10` and `predicted_5` |
| Evaluation.PrefixHoldsLowest | tests.py:32-40 | the first k of an ascending order hold the lowest values: none is above anything after them |
| Evaluation.Hits | tests.py:44 | a user's hits never exceed the size of the predicted top list |
| Evaluation.CountHits | tests.py:44 | the comprehension counts the predicted businesses found in the known top 10 |
| Evaluation.CountCorrect | tests.py:42-44 | `correct` is the total of those counts over all users |
| Evaluation.TotalHits | tests.py:42-44 | `correct` as a definition: the sum over users of their hits; its bound is stated by TotalHitsBound |
| Evaluation.TotalHitsBound | tests.py:42-45 | with at most 5 predicted per user, `correct` is at most 5 per user |
| Evaluation.UserAbsError | tests.py:50 | one user's sum of absolute differences over its predicted businesses |
| Evaluation.SumAbsError | tests.py:48-50 | the loop accumulates the absolute errors of all users |
| Evaluation.TotalAbsError | tests.py:48-50 | the accumulated `mse` before the division, as a definition: the sum over users of their absolute errors; its properties are stated by TotalAbsErrorZero |
| Evaluation.AbsErrorSumZero | tests.py:50 | a user's absolute error is non-negative and 0 when every prediction is exact |
| Evaluation.TotalAbsErrorZero | tests.py:48-52 | the total absolute error is non-negative and 0 when every prediction equals the held-out rating |
| Evaluation.Top5TestContent | tests.py:27-53 | precision is `correct / (users * 5)` and lies in [0, 1]; the error is the absolute-error total over `users * 25`, non-negative, and 0 when every prediction is exact |

## Left out

- Loading the pickled matrices and the module-global `UTILITY`/`SIMILARITY` cache (recommender.py:1, 93-96; tests.py:67): the matrices are immutable parameters.
- The catalog lookups `data.get_user`, `get_city_reviews`, `get_city_businesses`, `get_city`, `load_cities` and `get_business` are foreign calls. The city's businesses, the batches of randomly drawn cities and the name/address lookup are parameters of `Ranking.Recommend`.
- The default arguments of `recommend`: the fallback user `John` and the user's own city. The caller supplies the user and the city's businesses.
- Randomness:
  - `random.choice` in `recommend` is the parameter `draws`.
  - `np.random.choice` in `split_train_test` is the parameter `chosen`: per user, a set of `test_size` rated businesses. "Without replacement" is the set's distinctness.
- Ranking.Recommend reads `draws` as every batch the `while` loop takes, and requires them to supply at least n businesses in total. The source draws again for as long as it is short, so it loops forever only when the cities it draws never supply n businesses. With no cities at all, `random.choice` raises an IndexError instead.
- `recommender.content_prediction` is not part of this model. The predicted ratings of `top_5_test_content` are an input.
- `sort_values()` breaks ties in any order, so both orders of `top_5_test_content` are inputs. Each must be an ascending arrangement of its values (`AscendingOrder`).
- Top5TestContent requires at least one test user. With none, the source divides by zero.
- Dead or unused code: `baseline()`, the unused `reviews` of `recommend` and the commented-out test block.
- Printing, the progress counters, argparse, timing and the `--content` switch of the main block.
- pandas representation. A NaN is an absent key and ratings are exact `real` numbers, not IEEE floats, so rounding is not modelled.
- The `.loc[rated]` lookup raises a KeyError for a rated business that has no row in the similarity matrix. The model reads such a cell as NaN, so that business is not kept.
- In `build_utility_matrix` the frame's declared axes disagree with the chained `df[user][business]` write. The main block also passes the utility matrix's columns (its users) as `business_ids`. The model builds the intended `(user, business)` → rating matrix over the utility matrix's business index.
- Ranking.Lower lower-cases ASCII letters only; Python's `str.lower()` also maps other Unicode letters.
- Ranking.SortByKey is a stable insertion sort. Only its sortedness and permutation are proved, not its stability.
- Recommender.WeightedMean requires every similarity to be positive and, for a non-empty neighbourhood, a known user. Both hold for every neighbourhood `select_neighborhood` returns, and that is its only caller. The source accepts other inputs, and the model does not cover them:
  - An unknown user with a non-empty neighbourhood raises a KeyError at `UTILITY[user]` (recommender.py:26), before any division.
  - A neighbourhood with zero or negative similarities still gives the quotient when their sum is not 0, even a negative sum. When the sum is 0 the division gives inf or NaN.
- Evaluation.Hits counts with repetition, as the list comprehension does.
