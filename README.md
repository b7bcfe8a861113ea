# MachineLearningHw2 recommendation core in Dafny

This project models the user-based collaborative-filtering engine of
MachineLearningHw2. Given training records (user, movie, rating), the engine
predicts a user's rating of a movie. It starts from the user's own mean rating
and moves it by the similarity-weighted average of other users' deviations
from their own means. Two accuracy measures then score a list of predictions.

The modules follow the source files:

- `Records` (records.dfy) holds the two value records the core reads:
  `UserRating` and `MoviePrediction`.
- `Cache` (cache.dfy) models `UserCache` and its nested `UserRatingsCache`.
  Built once from the record list, the cache keeps a movie -> rating dictionary
  per user, with a running count and sum, plus the set of every movie id.
  Record-level functions (`UsersOf`, `MoviesOf`, `CountOf`, `SumOf`,
  `RatingMap`, `Mean`) say what the cache must hold. The classes are proved
  to hold exactly that.
- `MeanVote` (mean_vote.dfy) models `MeanVoteCalculator`. One pass builds a
  count and sum per user in `UserRatingAccumulator` objects. A second pass
  freezes the user -> mean table. This table does not key ratings by movie,
  so a repeated (user, movie) pair counts twice.
- `Pearson` (pearson.dfy) models `PearsonCoefficientCalculator.Calculate`.
  The calculation runs over the movies both users rated. With d1 and d2 each
  user's deviation from their own mean, it returns the sum of d1*d2 divided
  by sqrt(sum of (d1*d2)^2). The code's denominator is not textbook Pearson
  correlation. `WeightCanExceedOne` gives a user whose weight with themself
  is sqrt(2). `WeightBound` proves that the weight's square never exceeds
  the number of co-rated movies.
- `Prediction` (predictor.dfy) models `MovieScorePredictor`.
  `Prediction(sqrt, rs, u, m)` is the one-movie prediction as a function of
  the records:
  - the neighbours of `m` are every cached user who rated `m`, `u` included;
  - the prediction is mean(u) + (1 / sum of weights) * (sum of weight * (rating - mean)).

  `PredictScore` is proved to return it. `PredictAllScores` works in one pass
  over all users, keeps a `PearsonCache` per movie that it updates in place,
  then runs a final loop over those caches. It is proved to return, for
  exactly the listed movies someone rated, that same `Prediction`. So the
  batch and single-movie predictors agree. A movie listed k times adds k
  copies to both sums, and the ratio does not change.
- `MeanAbsoluteError` and `RootMeanSquareError` (error_calculation.dfy) model
  the two error loops. Both are proved against a closed-form mean, proved
  non-negative, zero exactly on exact predictions, and independent of order.
- `Sums` (sums.dfy) holds helper sums over sets and sequences, with their
  lemmas.

Arithmetic model:

- `float` and `double` become `real`, so there is no rounding and no NaN.
- `Math.Sqrt` is a function parameter `sqrt` constrained by `IsSqrt`
  (`sqrt(x) >= 0 && sqrt(x) * sqrt(x) == x` for `x >= 0`).
- Each division the source does without a guard becomes a `requires`. This
  covers the count, `sqrt(denominator)`, the weight sum and the list length.
- A lookup that would throw on a missing key, and a `Dictionary.Add` that
  would throw on a duplicate key, also become a `requires`.

Where a loop walks a dictionary, the model enumerates its keys in an order it
leaves open. Every specification is a sum over a set, so the proved result is
the same for any order.

## Model

| member | source | states |
|---|---|---|
| Cache.Mean | MachineLearningHw2/MachineLearningHw2/UserCache.cs:37-40 | a user's mean times the number of their records is the sum of their ratings |
| Cache.CountPositive | MachineLearningHw2/MachineLearningHw2/UserCache.cs:20-26 | every user in the records has at least one record, so sum / count is defined |
| Cache.MeanCharacterized | MachineLearningHw2/MachineLearningHw2/UserCache.cs:37-40 | the mean is the only value that, times the count, gives the sum |
| Cache.AppendRecord | MachineLearningHw2/MachineLearningHw2/UserCache.cs:54-66 | one more record adds its user and movie to the id sets; its user's count grows by 1, sum by the rating, dictionary by movie -> rating; every other user is unchanged |
| Cache.UsersOfExactly | MachineLearningHw2/MachineLearningHw2/UserCache.cs:54-66 | the cached users are exactly the user ids occurring in the records |
| Cache.MoviesOfExactly | MachineLearningHw2/MachineLearningHw2/UserCache.cs:50-56 | the movie set is exactly the movie ids occurring in the records |
| Cache.TalliesMeaning | MachineLearningHw2/MachineLearningHw2/UserCache.cs:54-66 | the constructor's loop ends with one entry per user of the records, holding that user's record count, rating sum and movie -> rating dictionary |
| Cache.NewPairNotTallied | MachineLearningHw2/MachineLearningHw2/UserCache.cs:59-62 | without a repeated (user, movie) pair, the movie a record adds to an existing entry is never already stored, so `Dictionary.Add` does not throw |
| Cache.NewPairNotStored | MachineLearningHw2/MachineLearningHw2/UserCache.cs:30-35 | without a repeated pair, a record's movie is not in its user's dictionary built from the records before it |
| Cache.RatingMapKeys | MachineLearningHw2/MachineLearningHw2/UserCache.cs:54-66 | movie m is in user u's dictionary exactly when some record pairs u with m |
| Cache.RatingMapValues | MachineLearningHw2/MachineLearningHw2/UserCache.cs:30-35 | without a repeated pair, every record's rating is stored under its movie in its user's dictionary |
| Cache.RatingMapMatchesCounts | MachineLearningHw2/MachineLearningHw2/UserCache.cs:30-35 | without a repeated pair, a user's dictionary has one entry per record of theirs and its values add up to the sum of their ratings |
| Cache.MeanOfStoredRatings | MachineLearningHw2/MachineLearningHw2/UserCache.cs:37-45 | without a repeated pair, a user's mean is the mean of the values in their dictionary, which is non-empty |
| Cache.StoredMean | MachineLearningHw2/MachineLearningHw2/UserCache.cs:37-40 | an entry holding a user's count and sum averages to that user's mean |
| Cache.UserRatingsCache.constructor | MachineLearningHw2/MachineLearningHw2/UserCache.cs:20-26 | a new entry holds count 1, sum = the first rating and the one movie -> rating pair |
| Cache.UserRatingsCache.AddRating | MachineLearningHw2/MachineLearningHw2/UserCache.cs:30-35 | requires the movie to be unrated (the dictionary add throws otherwise); the count grows by 1, the sum by the rating, the dictionary by exactly movie -> rating |
| Cache.UserRatingsCache.GetAverageRating | MachineLearningHw2/MachineLearningHw2/UserCache.cs:37-40 | the average times the count is the running sum; the count is at least 1 |
| Cache.UserRatingsCache.GetMovieRatings | MachineLearningHw2/MachineLearningHw2/UserCache.cs:42-45 | the dictionary holds one rating per counted record, at least one |
| Cache.UserCache.StoreRecord | MachineLearningHw2/MachineLearningHw2/UserCache.cs:56-66 | one loop pass: the movie joins the set and the record's user gets the record, in the existing entry or a fresh one; the cache then describes one more record |
| Cache.UserCache.ExtendEntry | MachineLearningHw2/MachineLearningHw2/UserCache.cs:59-62 | an existing user's entry takes the record; every other entry keeps its totals |
| Cache.UserCache.CreateEntry | MachineLearningHw2/MachineLearningHw2/UserCache.cs:63-66 | a new user gets a fresh entry holding the record; the other entries are unchanged |
| Cache.UserCache.constructor | MachineLearningHw2/MachineLearningHw2/UserCache.cs:48-68 | requires no repeated (user, movie) pair; the cache has one entry per user of the records, with that user's count, sum and dictionary, and the movie set of the records |
| Cache.UserCache.CalculateMeanRatingForUser | MachineLearningHw2/MachineLearningHw2/UserCache.cs:70-73 | requires a cached user (the lookup throws otherwise); returns the user's mean over their records |
| Cache.UserCache.GetUserMovieRatings | MachineLearningHw2/MachineLearningHw2/UserCache.cs:75-78 | requires a cached user; returns their movie -> rating dictionary, one entry per record of theirs |
| Cache.UserCache.GetAllUsersAndMovieRatings | MachineLearningHw2/MachineLearningHw2/UserCache.cs:86-89 | one entry per user of the records, each holding the user's dictionary and averaging to the user's mean |
| Cache.UserCache.MovieIds | MachineLearningHw2/MachineLearningHw2/UserCache.cs:50-56 | a movie id is in the set exactly when some record carries it |
| MeanVote.AccumulatedMeaning | MachineLearningHw2/MachineLearningHw2/MeanVoteCalculator.cs:37-48 | the first pass ends with one entry per user of the records, holding their record count and rating sum, repeated pairs included |
| MeanVote.MeanPermutation | MachineLearningHw2/MachineLearningHw2/MeanVoteCalculator.cs:37-53 | reordering the records changes neither the set of users nor any user's mean |
| MeanVote.MeanWithin | MachineLearningHw2/MachineLearningHw2/MeanVoteCalculator.cs:27-30 | a user's mean lies between bounds that hold for all of that user's ratings |
| MeanVote.AverageIsMean | MachineLearningHw2/MachineLearningHw2/MeanVoteCalculator.cs:27-30 | an accumulator holding a user's totals averages to that user's mean |
| MeanVote.UserRatingAccumulator.constructor | MachineLearningHw2/MachineLearningHw2/MeanVoteCalculator.cs:15-19 | a new accumulator holds count 1 and sum = its first rating |
| MeanVote.UserRatingAccumulator.AddRating | MachineLearningHw2/MachineLearningHw2/MeanVoteCalculator.cs:21-25 | the count grows by exactly 1 and the sum by exactly the rating |
| MeanVote.UserRatingAccumulator.GetAverageRatings | MachineLearningHw2/MachineLearningHw2/MeanVoteCalculator.cs:27-30 | requires a count of at least 1; the average times the count is the sum |
| MeanVote.MeanVoteCalculator.AccumulateRecord | MachineLearningHw2/MachineLearningHw2/MeanVoteCalculator.cs:39-47 | one pass of the first loop: the known user's accumulator takes the rating, or a fresh accumulator starts; the dictionary then holds the totals of one more record |
| MeanVote.MeanVoteCalculator.FreezeMeans | MachineLearningHw2/MachineLearningHw2/MeanVoteCalculator.cs:50-54 | the second loop gives exactly the accumulated users a mean each, and each mean is that user's record-level mean |
| MeanVote.MeanVoteCalculator.constructor | MachineLearningHw2/MachineLearningHw2/MeanVoteCalculator.cs:33-55 | the table's keys are exactly the users of the records, and each value is the user's rating sum over their record count |
| MeanVote.MeanVoteCalculator.CalculateMeanRatingForUser | MachineLearningHw2/MachineLearningHw2/MeanVoteCalculator.cs:57-60 | requires a user of the records (the lookup throws otherwise); the result times the user's count is their sum |
| MeanVote.MeanVoteMatchesUserCache | MachineLearningHw2/MachineLearningHw2/MeanVoteCalculator.cs:37-59 | without a repeated (user, movie) pair, the table and a user cache built from the same records give every user the same mean, which is the mean of the user's cached dictionary |
| Pearson.Symmetric | MachineLearningHw2/MachineLearningHw2/PearsonCoefficientCalculator.cs:26-45 | swapping the two users changes neither the co-rated set, the numerator, the denominator nor the weight |
| Pearson.DenominatorNonNegative | MachineLearningHw2/MachineLearningHw2/PearsonCoefficientCalculator.cs:39-42 | the denominator is never negative |
| Pearson.DenominatorZero | MachineLearningHw2/MachineLearningHw2/PearsonCoefficientCalculator.cs:24-45 | the denominator is zero exactly when every co-rated product is zero, always when nothing is co-rated; the numerator is then zero as well, so the division is 0/0 |
| Pearson.NumeratorSquareBound | MachineLearningHw2/MachineLearningHw2/PearsonCoefficientCalculator.cs:35-42 | the squared numerator is at most the number of co-rated movies times the denominator |
| Pearson.WeightBound | MachineLearningHw2/MachineLearningHw2/PearsonCoefficientCalculator.cs:45 | with a non-zero denominator, the weight's square is at most the number of co-rated movies |
| Pearson.WeightCanExceedOne | MachineLearningHw2/MachineLearningHw2/PearsonCoefficientCalculator.cs:35-45 | a user rating two movies 1.0 and 3.0 has numerator 2, denominator 2 and weight sqrt(2) > 1 with themself |
| Pearson.SelfNumeratorNonNegative | MachineLearningHw2/MachineLearningHw2/PearsonCoefficientCalculator.cs:26-42 | a user's co-rated set with themself is all their movies, and their numerator with themself is not negative |
| Pearson.OverFirstUsersMovies | MachineLearningHw2/MachineLearningHw2/PearsonCoefficientCalculator.cs:26-33 | summing over user 1's movies in any order, with the movies user 2 did not rate contributing nothing, gives the sums over the co-rated movies |
| Pearson.CoRatedSums | MachineLearningHw2/MachineLearningHw2/PearsonCoefficientCalculator.cs:24-43 | the loop ends with the sum of the deviation products and the sum of their squares over the co-rated movies |
| Pearson.PearsonCoefficientCalculator.constructor | MachineLearningHw2/MachineLearningHw2/PearsonCoefficientCalculator.cs:10-13 | given a valid cache and a square-root function, the calculator reads that cache and is valid |
| Pearson.PearsonCoefficientCalculator.Calculate | MachineLearningHw2/MachineLearningHw2/PearsonCoefficientCalculator.cs:15-48 | requires both users cached and a non-zero denominator; returns numerator / sqrt(denominator) over the two users' cached profiles |
| Prediction.NeighboursExactly | MachineLearningHw2/MachineLearningHw2/MovieScorePredictor.cs:20-21 | a user is a neighbour of movie m exactly when some record pairs that user with m |
| Prediction.RatersAreNeighbours | MachineLearningHw2/MachineLearningHw2/MovieScorePredictor.cs:20-21 | the cached users whose dictionary contains the movie are exactly its neighbours, the target user included |
| Prediction.NeighbourValues | MachineLearningHw2/MachineLearningHw2/MovieScorePredictor.cs:27-31 | a neighbour adds its similarity weight to the weight sum, and weight * (its rating - its mean) to the accumulated sum |
| Prediction.OverAllUsers | MachineLearningHw2/MachineLearningHw2/MovieScorePredictor.cs:67-77 | walking all users in any order and skipping those who did not rate the movie gives the sums over the neighbours |
| Prediction.ScaledCombine | MachineLearningHw2/MachineLearningHw2/MovieScorePredictor.cs:99 | scaling both sums by one non-zero factor leaves the prediction unchanged |
| Prediction.Add | MachineLearningHw2/MachineLearningHw2/MovieScorePredictor.cs:81-89 | recording a contribution gives the movie an entry holding its old sums plus the weight and the contribution (from zero when new); other movies are unchanged |
| Prediction.AddUserMeaning | MachineLearningHw2/MachineLearningHw2/MovieScorePredictor.cs:71-90 | after one user's inner loop, a movie has an entry exactly when it had one or is listed and rated by the user; its sums grew by its number of listings times the user's terms |
| Prediction.AddUsersMeaning | MachineLearningHw2/MachineLearningHw2/MovieScorePredictor.cs:67-91 | after the outer loop, a movie has an entry exactly when it is listed and some user rated it; its sums are its number of listings times the sums of the users' terms |
| Prediction.RowsSums | MachineLearningHw2/MachineLearningHw2/MovieScorePredictor.cs:67-79 | the users' terms seen by the one-pass loop add up to the one-movie weight and contribution terms |
| Prediction.RowsRated | MachineLearningHw2/MachineLearningHw2/MovieScorePredictor.cs:71-77 | some user's ratings contain the movie exactly when the movie has a neighbour |
| Prediction.AllScoresTotals | MachineLearningHw2/MachineLearningHw2/MovieScorePredictor.cs:64-91 | the dictionary built over all users has an entry exactly for the listed movies someone rated; its sums are the one-movie sums times the number of listings |
| Prediction.RepeatedCombine | MachineLearningHw2/MachineLearningHw2/MovieScorePredictor.cs:99 | sums that are c > 0 copies of non-zero one-movie sums predict the same rating as those sums |
| Prediction.OnePrediction | MachineLearningHw2/MachineLearningHw2/MovieScorePredictor.cs:96-101 | for a listed movie with a neighbour and a non-zero weight sum, the batch entry's prediction equals the one-movie prediction |
| Prediction.PredictedMovies | MachineLearningHw2/MachineLearningHw2/MovieScorePredictor.cs:71-101 | the batch keeps exactly the listed movies some user rated |
| Prediction.AllPredictions | MachineLearningHw2/MachineLearningHw2/MovieScorePredictor.cs:64-101 | every batch entry has a non-zero weight sum and predicts what the one-movie prediction predicts, and the entries are exactly the listed movies someone rated |
| Prediction.PearsonCache.constructor | MachineLearningHw2/MachineLearningHw2/MovieScorePredictor.cs:46-50 | a new cache holds exactly the given weight sum and accumulated sum |
| Prediction.PearsonCache.Update | MachineLearningHw2/MachineLearningHw2/MovieScorePredictor.cs:52-56 | the weight is added to the weight sum and the contribution to the accumulated sum |
| Prediction.MovieScorePredictor.constructor | MachineLearningHw2/MachineLearningHw2/MovieScorePredictor.cs:10-13 | given a valid calculator, the predictor reads it and is valid |
| Prediction.MovieScorePredictor.PredictScore | MachineLearningHw2/MachineLearningHw2/MovieScorePredictor.cs:15-39 | requires defined weights for the neighbours and a non-zero weight sum; returns mean(user) + accumulated / weight sum over every user who rated the movie |
| Prediction.MovieScorePredictor.NeighbourSums | MachineLearningHw2/MachineLearningHw2/MovieScorePredictor.cs:23-33 | the loop's two sums are the sum of the neighbours' weights and the sum of their weighted deviations |
| Prediction.MovieScorePredictor.SumOverNeighbours | MachineLearningHw2/MachineLearningHw2/MovieScorePredictor.cs:25-33 | the loop adds one weight and one weighted deviation per neighbour, in the enumeration's order |
| Prediction.MovieScorePredictor.Record | MachineLearningHw2/MachineLearningHw2/MovieScorePredictor.cs:81-89 | the movie's cache is created with the weight and contribution, or updated by them; the dictionary then tracks the sums with the contribution added |
| Prediction.MovieScorePredictor.AddUserRatings | MachineLearningHw2/MachineLearningHw2/MovieScorePredictor.cs:71-90 | one user's inner loop adds their one weight and their weighted deviation to every listed movie they rated, skipping the rest |
| Prediction.MovieScorePredictor.VisitUser | MachineLearningHw2/MachineLearningHw2/MovieScorePredictor.cs:67-91 | one pass of the outer loop: the user's weight with the target, then their inner loop |
| Prediction.MovieScorePredictor.CollectTotals | MachineLearningHw2/MachineLearningHw2/MovieScorePredictor.cs:66-91 | the outer loop ends with the dictionary tracking every user's contributions to the listed movies |
| Prediction.MovieScorePredictor.UserTotals | MachineLearningHw2/MachineLearningHw2/MovieScorePredictor.cs:64-91 | the dictionary of caches holds the sums of the one-pass loop over all cached users |
| Prediction.MovieScorePredictor.Predictions | MachineLearningHw2/MachineLearningHw2/MovieScorePredictor.cs:96-101 | the final loop gives every cached movie, and no other, mean + accumulated / weight sum from its cache |
| Prediction.MovieScorePredictor.ScoresFromTotals | MachineLearningHw2/MachineLearningHw2/MovieScorePredictor.cs:93-103 | from the collected sums, the result is the one-movie prediction for exactly the listed movies someone rated |
| Prediction.MovieScorePredictor.PredictAllScores | MachineLearningHw2/MachineLearningHw2/MovieScorePredictor.cs:59-104 | the result's keys are exactly the listed movies some cached user rated, and each value is the one-movie prediction that PredictScore returns |
| MeanAbsoluteError.Mae | MachineLearningHw2/MachineLearningHw2/ErrorCalculation/MeanAbsoluteError.cs:13-17 | the mean absolute error of a non-empty list is not negative |
| MeanAbsoluteError.Calculate | MachineLearningHw2/MachineLearningHw2/ErrorCalculation/MeanAbsoluteError.cs:8-18 | requires a non-empty list; returns the sum of the absolute errors over the number of predictions |
| MeanAbsoluteError.ZeroIffExact | MachineLearningHw2/MachineLearningHw2/ErrorCalculation/MeanAbsoluteError.cs:10-17 | the error is zero exactly when every prediction equals its observed rating |
| MeanAbsoluteError.OrderIndependent | MachineLearningHw2/MachineLearningHw2/ErrorCalculation/MeanAbsoluteError.cs:11-15 | reordering the predictions does not change the error |
| MeanAbsoluteError.Example | MachineLearningHw2/MachineLearningHw2/ErrorCalculation/MeanAbsoluteError.cs:10-17 | (real 5, predicted 4) and (real 3, predicted 3) give 0.5 |
| RootMeanSquareError.MeanSquare | MachineLearningHw2/MachineLearningHw2/ErrorCalculation/RootMeanSquareError.cs:13-17 | the mean squared error of a non-empty list is not negative |
| RootMeanSquareError.Calculate | MachineLearningHw2/MachineLearningHw2/ErrorCalculation/RootMeanSquareError.cs:8-18 | requires a non-empty list; returns a non-negative r whose square is the sum of squared errors over the number of predictions; the running sum is never negative |
| RootMeanSquareError.ZeroIffExact | MachineLearningHw2/MachineLearningHw2/ErrorCalculation/RootMeanSquareError.cs:10-17 | the mean square is zero exactly when every prediction equals its observed rating |
| RootMeanSquareError.RootZeroIffExact | MachineLearningHw2/MachineLearningHw2/ErrorCalculation/RootMeanSquareError.cs:17 | the root is zero exactly when every prediction equals its observed rating |
| RootMeanSquareError.OrderIndependent | MachineLearningHw2/MachineLearningHw2/ErrorCalculation/RootMeanSquareError.cs:11-15 | reordering the predictions does not change the mean square |
| RootMeanSquareError.Example | MachineLearningHw2/MachineLearningHw2/ErrorCalculation/RootMeanSquareError.cs:10-17 | (real 5, predicted 4) and (real 3, predicted 3) give a mean square of 0.5 |

## Left out

- Program.cs is not part of this model. It is console orchestration and file I/O.
- CsvParserUtils is not part of this model. It wraps a CSV library. The same goes for `UserCache.BuildUserCache` (UserCache.cs:80-84), which reads a file; only the constructor that takes a list is modelled.
- IEEE `float` and `double` are not modelled: no rounding, no `float` casts of the means (MovieScorePredictor.cs:35, 93), no NaN or Infinity. Every division by zero that would produce one is excluded by a `requires`.
- `Math.Sqrt` is abstract: any function satisfying `IsSqrt`.
- The unused `Predicted` flag (UserCache.cs:28) is not modelled.
- Dictionary enumeration order is not modelled. Each loop over a dictionary walks its keys in an order the model leaves open, and every result is proved for any such order.
- `MovieScorePredictor` calls `_pearsonCalculator.GetUserCache()`, which PearsonCoefficientCalculator.cs does not declare. The model reads the calculator's cache field instead.
- The code keeps every neighbour: there is no top-K selection. It has no guard for a zero similarity denominator and no fallback for a zero weight sum, so the model has neither.
- A repeated (user, movie) pair makes `Dictionary.Add` throw (UserCache.cs:34); no rating is overwritten.
- The weight is not textbook Pearson correlation: its denominator is the sum of the squared products (`Pearson.WeightCanExceedOne`).
- Cache.UserCache.constructor: requires no repeated (user, movie) pair. The source throws on one, and the exception is not modelled.
- Cache.UserRatingsCache.AddRating: requires the movie to be unrated. The source throws otherwise.
- Pearson.PearsonCoefficientCalculator.Calculate: requires a non-zero denominator. The source returns NaN (0/0) when it is zero.
- Prediction.MovieScorePredictor.PredictScore: requires a non-zero denominator between the user and each neighbour, and a non-zero weight sum. The source would produce NaN or Infinity instead.
- Prediction.MovieScorePredictor.PredictAllScores: requires a non-zero denominator between the user and every cached user, not only the users who rated a listed movie. The source computes a weight for every cached user; a NaN weight of a user who rated none of the listed movies never reaches a result, so the source tolerates it and the model does not.
- Prediction.Similarity is 0.0 where the source divides 0 by 0. The predictor's preconditions rule that case out wherever a weight is used.
- MeanAbsoluteError.Calculate: requires a non-empty list. The source returns NaN for an empty one.
- RootMeanSquareError.Calculate: requires a non-empty list, and states its result through `sqrt`'s defining property (r >= 0 and r * r equals the mean square) rather than as a computed root.
