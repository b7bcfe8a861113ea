/**
 Rating prediction (MovieScorePredictor.cs). The prediction of user `u`'s
 rating of movie `m` is

     mean(u) + (1 / sum of w_n) * (sum of w_n * (r_n(m) - mean(n)))

 over the neighbours n of `m`: every cached user who rated `m`, `u` included
 when `u` rated it. w_n is the similarity weight of `u` and `n`.
 */
module Prediction {
  import opened Records
  import opened Sums
  import opened Cache
  import opened Pearson

  // ---------------------------------------------------------------------
  // One movie, as functions of the records
  // ---------------------------------------------------------------------

  /** The users who rated movie `m`. */
  function Neighbours(rs: seq<UserRating>, m: int): set<int>
  {
    set n | n in UsersOf(rs) && m in RatingMap(rs, n)
  }

  /**
   The weight of users `u` and `n`. Where the source divides zero by zero
   (a zero denominator) it is 0.0 here; the predictor requires non-zero
   denominators wherever it asks for a weight, so that value is never used.
   */
  ghost function Similarity(sqrt: real -> real, rs: seq<UserRating>, u: int, n: int): real
  {
    if u in UsersOf(rs) && n in UsersOf(rs) && sqrt(Denominator(ProfileOf(rs, u), ProfileOf(rs, n))) != 0.0
    then Weight(sqrt, ProfileOf(rs, u), ProfileOf(rs, n))
    else 0.0
  }

  /** A neighbour's weighted deviation from their own mean. */
  function Contribution(weight: real, rating: real, mean: real): real
  {
    weight * (rating - mean)
  }

  /** Neighbour `n`'s weight for movie `m`; 0.0 when `n` did not rate `m`. */
  ghost function WeightAt(sqrt: real -> real, rs: seq<UserRating>, u: int, m: int, n: int): real
  {
    if n in UsersOf(rs) && m in RatingMap(rs, n) then Similarity(sqrt, rs, u, n) else 0.0
  }

  /** Neighbour `n`'s contribution for movie `m`; 0.0 when `n` did not rate `m`. */
  ghost function ContributionAt(sqrt: real -> real, rs: seq<UserRating>, u: int, m: int, n: int): real
  {
    if n in UsersOf(rs) && m in RatingMap(rs, n)
    then Contribution(Similarity(sqrt, rs, u, n), RatingMap(rs, n)[m], Mean(rs, n))
    else 0.0
  }

  ghost function WeightTerm(sqrt: real -> real, rs: seq<UserRating>, u: int, m: int): int -> real
  {
    (n: int) => WeightAt(sqrt, rs, u, m, n)
  }

  ghost function ContributionTerm(sqrt: real -> real, rs: seq<UserRating>, u: int, m: int): int -> real
  {
    (n: int) => ContributionAt(sqrt, rs, u, m, n)
  }

  /** The sum of the neighbours' weights. */
  ghost function WeightSum(sqrt: real -> real, rs: seq<UserRating>, u: int, m: int): real
  {
    SumSet(Neighbours(rs, m), WeightTerm(sqrt, rs, u, m))
  }

  /** The sum of the neighbours' contributions. */
  ghost function AccumulatedSum(sqrt: real -> real, rs: seq<UserRating>, u: int, m: int): real
  {
    SumSet(Neighbours(rs, m), ContributionTerm(sqrt, rs, u, m))
  }

  /** The user's mean moved by the weighted average of the deviations; the source divides without a guard. */
  function Combine(mean: real, sumOfWeights: real, accumulated: real): real
    requires sumOfWeights != 0.0
  {
    mean + (1.0 / sumOfWeights) * accumulated
  }

  /** The predicted rating. */
  ghost function Prediction(sqrt: real -> real, rs: seq<UserRating>, u: int, m: int): real
    requires u in UsersOf(rs) && WeightSum(sqrt, rs, u, m) != 0.0
  {
    Combine(Mean(rs, u), WeightSum(sqrt, rs, u, m), AccumulatedSum(sqrt, rs, u, m))
  }

  /** Every neighbour's weight is defined: no zero denominator between `u` and a user who rated `m`. */
  ghost predicate WeightsDefined(rs: seq<UserRating>, u: int, users: set<int>)
  {
    u in UsersOf(rs) &&
    forall n :: n in users ==> n in UsersOf(rs) && Denominator(ProfileOf(rs, u), ProfileOf(rs, n)) != 0.0
  }

  // ---------------------------------------------------------------------
  // Properties of the one-movie prediction
  // ---------------------------------------------------------------------

  /** The neighbours of `m` are exactly the users with a record for `m`. */
  lemma NeighboursExactly(rs: seq<UserRating>, m: int, n: int)
    ensures n in Neighbours(rs, m) <==> exists i :: 0 <= i < |rs| && rs[i].userId == n && rs[i].movieId == m
  {
    RatingMapKeys(rs, n, m);
    if n in Neighbours(rs, m) {
      assert m in RatingMap(rs, n);
    } else if exists i :: 0 <= i < |rs| && rs[i].userId == n && rs[i].movieId == m {
      var i :| 0 <= i < |rs| && rs[i].userId == n && rs[i].movieId == m;
      UsersOfExactly(rs, n);
      assert n in UsersOf(rs);
    }
  }

  /** What a user who rated `m` adds to the two sums: their weight and their weighted deviation. */
  lemma NeighbourValues(sqrt: real -> real, rs: seq<UserRating>, u: int, m: int, n: int)
    requires IsSqrt(sqrt)
    requires WeightsDefined(rs, u, Neighbours(rs, m)) && n in Neighbours(rs, m)
    ensures sqrt(Denominator(ProfileOf(rs, u), ProfileOf(rs, n))) > 0.0
    ensures WeightTerm(sqrt, rs, u, m)(n) == Weight(sqrt, ProfileOf(rs, u), ProfileOf(rs, n))
    ensures ContributionTerm(sqrt, rs, u, m)(n)
         == Contribution(Weight(sqrt, ProfileOf(rs, u), ProfileOf(rs, n)), RatingMap(rs, n)[m], Mean(rs, n))
  {
    DenominatorNonNegative(ProfileOf(rs, u), ProfileOf(rs, n));
    SqrtPositive(sqrt, Denominator(ProfileOf(rs, u), ProfileOf(rs, n)));
  }

  /** The users whose entry holds a rating of `m` are the neighbours of `m`. */
  lemma RatersAreNeighbours(rs: seq<UserRating>, m: int, users: map<int, UserRatingsCache>, raters: set<int>)
    requires users.Keys == UsersOf(rs)
    requires forall n :: n in users ==> users[n].Valid() && users[n].movieRatings == RatingMap(rs, n)
    requires raters == set n | n in users && m in users[n].GetMovieRatings()
    ensures raters == Neighbours(rs, m)
  {
  }

  /**
   What the loop over the users in `keys` needs of each of them: an entry
   holding a rating of `m`, a defined weight with `u`, and the two terms
   `weightTerm` and `contributionTerm` that the entry and the weight give.
   */
  ghost predicate LoopReady(c: PearsonCoefficientCalculator, u: int, m: int, users: map<int, UserRatingsCache>,
                            keys: seq<int>, weightTerm: int -> real, contributionTerm: int -> real)
    reads c, c.userCache, users.Values
  {
    && u in UsersOf(c.userCache.records)
    && forall n :: n in keys ==>
      && n in users && users[n].Valid() && m in users[n].movieRatings && n in UsersOf(c.userCache.records)
      && Denominator(c.ProfileFor(u), c.ProfileFor(n)) != 0.0
      && c.sqrt(Denominator(c.ProfileFor(u), c.ProfileFor(n))) != 0.0
      && weightTerm(n) == Weight(c.sqrt, c.ProfileFor(u), c.ProfileFor(n))
      && contributionTerm(n) == Contribution(weightTerm(n), users[n].movieRatings[m], users[n].GetAverageRating())
  }

  /** Every neighbour of `m` is ready for the loop, with the terms of the two sums. */
  lemma NeighbourFacts(c: PearsonCoefficientCalculator, u: int, m: int, users: map<int, UserRatingsCache>, keys: seq<int>)
    requires c.Valid()
    requires WeightsDefined(c.userCache.records, u, Neighbours(c.userCache.records, m))
    requires users.Keys == UsersOf(c.userCache.records)
    requires forall n :: n in users ==>
      users[n].Valid() && users[n].movieRatings == RatingMap(c.userCache.records, n) &&
      users[n].GetAverageRating() == Mean(c.userCache.records, n)
    requires Enumerates(keys, Neighbours(c.userCache.records, m))
    ensures LoopReady(c, u, m, users, keys, WeightTerm(c.sqrt, c.userCache.records, u, m),
                      ContributionTerm(c.sqrt, c.userCache.records, u, m))
  {
    forall n | n in keys
      ensures && n in users && users[n].Valid() && m in users[n].movieRatings && n in UsersOf(c.userCache.records)
              && Denominator(c.ProfileFor(u), c.ProfileFor(n)) != 0.0
              && c.sqrt(Denominator(c.ProfileFor(u), c.ProfileFor(n))) != 0.0
      ensures WeightTerm(c.sqrt, c.userCache.records, u, m)(n) == Weight(c.sqrt, c.ProfileFor(u), c.ProfileFor(n))
      ensures ContributionTerm(c.sqrt, c.userCache.records, u, m)(n)
              == Contribution(WeightTerm(c.sqrt, c.userCache.records, u, m)(n), users[n].movieRatings[m], users[n].GetAverageRating())
    {
      NeighbourValues(c.sqrt, c.userCache.records, u, m, n);
    }
  }

  /** One more user added to both running sums. */
  lemma SumsStep(keys: seq<int>, i: int, weightTerm: int -> real, contributionTerm: int -> real,
                 weight: real, contribution: real)
    requires 0 <= i < |keys|
    requires weightTerm(keys[i]) == weight && contributionTerm(keys[i]) == contribution
    ensures SumSeq(keys[..i + 1], weightTerm) == SumSeq(keys[..i], weightTerm) + weight
    ensures SumSeq(keys[..i + 1], contributionTerm) == SumSeq(keys[..i], contributionTerm) + contribution
  {
    SumSeqPrefix(keys, i, weightTerm);
    SumSeqPrefix(keys, i, contributionTerm);
  }

  /** Summing over all users in any order is summing over the neighbours. */
  lemma OverAllUsers(sqrt: real -> real, rs: seq<UserRating>, u: int, m: int, keys: seq<int>)
    requires Enumerates(keys, UsersOf(rs))
    ensures SumSeq(keys, WeightTerm(sqrt, rs, u, m)) == WeightSum(sqrt, rs, u, m)
    ensures SumSeq(keys, ContributionTerm(sqrt, rs, u, m)) == AccumulatedSum(sqrt, rs, u, m)
  {
    SumSeqEnumerates(keys, UsersOf(rs), WeightTerm(sqrt, rs, u, m));
    SumSeqEnumerates(keys, UsersOf(rs), ContributionTerm(sqrt, rs, u, m));
    SumSetZeroOutside(UsersOf(rs), Neighbours(rs, m), WeightTerm(sqrt, rs, u, m));
    SumSetZeroOutside(UsersOf(rs), Neighbours(rs, m), ContributionTerm(sqrt, rs, u, m));
  }

  /** Scaling both sums by the same non-zero factor leaves the prediction unchanged. */
  lemma ScaledCombine(mean: real, k: real, sumOfWeights: real, accumulated: real, scaledWeights: real, scaledAccumulated: real)
    requires k != 0.0 && sumOfWeights != 0.0
    requires scaledWeights == k * sumOfWeights && scaledAccumulated == k * accumulated
    ensures scaledWeights != 0.0
    ensures Combine(mean, scaledWeights, scaledAccumulated) == Combine(mean, sumOfWeights, accumulated)
  {
    assert (1.0 / (k * sumOfWeights)) * k == 1.0 / sumOfWeights;
  }

  // ---------------------------------------------------------------------
  // Every movie of a list in one pass (PredictAllScores), as values
  // ---------------------------------------------------------------------

  /** One user as the all-movies pass sees them: their ratings, their mean and their weight with the target user. */
  datatype Row = Row(ratings: map<int, real>, mean: real, weight: real)

  /** The two running sums of one movie's entry. */
  datatype MovieTotals = MovieTotals(sumOfWeights: real, accumulated: real)

  /** A movie's sums; zero while it has no entry. */
  function TotalsAt(acc: map<int, MovieTotals>, m: int): MovieTotals
  {
    if m in acc then acc[m] else MovieTotals(0.0, 0.0)
  }

  /** One neighbour's terms added to movie `m`: a new entry holds them, an existing entry adds them. */
  function Add(acc: map<int, MovieTotals>, m: int, weight: real, contribution: real): (r: map<int, MovieTotals>)
    ensures r.Keys == acc.Keys + {m}
    ensures TotalsAt(r, m) == MovieTotals(TotalsAt(acc, m).sumOfWeights + weight, TotalsAt(acc, m).accumulated + contribution)
    ensures forall k :: k != m ==> TotalsAt(r, k) == TotalsAt(acc, k)
  {
    if m in acc then acc[m := MovieTotals(acc[m].sumOfWeights + weight, acc[m].accumulated + contribution)]
    else acc[m := MovieTotals(weight, contribution)]
  }

  /** The inner loop's body for movie `m`: nothing unless the user rated `m`. */
  function Visit(acc: map<int, MovieTotals>, row: Row, m: int): map<int, MovieTotals>
  {
    if m in row.ratings then Add(acc, m, row.weight, Contribution(row.weight, row.ratings[m], row.mean)) else acc
  }

  /** The inner loop: one user visits every movie of the list, in order. */
  function AddUser(acc: map<int, MovieTotals>, row: Row, ms: seq<int>): map<int, MovieTotals>
  {
    if ms == [] then acc else Visit(AddUser(acc, row, ms[..|ms| - 1]), row, ms[|ms| - 1])
  }

  /** The outer loop: every user, in order, from an empty dictionary. */
  function AddUsers(rows: seq<Row>, ms: seq<int>): map<int, MovieTotals>
  {
    if rows == [] then map[] else AddUser(AddUsers(rows[..|rows| - 1], ms), rows[|rows| - 1], ms)
  }

  /** How often `m` occurs in the list. */
  function Count(ms: seq<int>, m: int): nat
  {
    if ms == [] then 0 else Count(ms[..|ms| - 1], m) + (if ms[|ms| - 1] == m then 1 else 0)
  }

  /** A row's weight for movie `m`; 0.0 when the user did not rate `m`. */
  function RowWeight(m: int): Row -> real
  {
    (row: Row) => if m in row.ratings then row.weight else 0.0
  }

  /** A row's weighted deviation for movie `m`; 0.0 when the user did not rate `m`. */
  function RowContribution(m: int): Row -> real
  {
    (row: Row) => if m in row.ratings then Contribution(row.weight, row.ratings[m], row.mean) else 0.0
  }

  lemma {:induction false} CountOccurs(ms: seq<int>, m: int)
    ensures m in ms <==> Count(ms, m) > 0
  {
    if ms != [] {
      CountOccurs(ms[..|ms| - 1], m);
      assert ms == ms[..|ms| - 1] + [ms[|ms| - 1]];
    }
  }

  /** `k` copies of `x` added up, as the loops add them. */
  function Times(k: nat, x: real): real
  {
    if k == 0 then 0.0 else Times(k - 1, x) + x
  }

  lemma {:induction false} TimesIsProduct(k: nat, x: real)
    ensures Times(k, x) == k as real * x
  {
    if k > 0 {
      TimesIsProduct(k - 1, x);
      assert (k - 1) as real * x + x == k as real * x;
    }
  }

  lemma {:induction false} TimesDistributes(k: nat, x: real, y: real)
    ensures Times(k, x + y) == Times(k, x) + Times(k, y)
  {
    if k > 0 {
      TimesDistributes(k - 1, x, y);
    }
  }

  /**
   One user adds to every movie they rated their two terms, once per
   occurrence of the movie in the list, and creates no other entry.
   */
  lemma {:induction false} AddUserMeaning(acc: map<int, MovieTotals>, row: Row, ms: seq<int>, m: int)
    ensures m in AddUser(acc, row, ms) <==> m in acc || (m in ms && m in row.ratings)
    ensures TotalsAt(AddUser(acc, row, ms), m).sumOfWeights
         == TotalsAt(acc, m).sumOfWeights + Times(Count(ms, m), RowWeight(m)(row))
    ensures TotalsAt(AddUser(acc, row, ms), m).accumulated
         == TotalsAt(acc, m).accumulated + Times(Count(ms, m), RowContribution(m)(row))
  {
    if ms != [] {
      var init, last := ms[..|ms| - 1], ms[|ms| - 1];
      AddUserMeaning(acc, row, init, m);
      assert ms == init + [last];
    }
  }

  /**
   After every user: a movie has an entry exactly when it is in the list and
   someone rated it, and its sums are the sums over the users, once per
   occurrence of the movie in the list.
   */
  lemma {:induction false} AddUsersMeaning(rows: seq<Row>, ms: seq<int>, m: int)
    ensures m in AddUsers(rows, ms) <==> m in ms && exists k :: 0 <= k < |rows| && m in rows[k].ratings
    ensures TotalsAt(AddUsers(rows, ms), m).sumOfWeights == Times(Count(ms, m), SumSeq(rows, RowWeight(m)))
    ensures TotalsAt(AddUsers(rows, ms), m).accumulated == Times(Count(ms, m), SumSeq(rows, RowContribution(m)))
  {
    if rows == [] {
      TimesZero(Count(ms, m));
    } else {
      var init, last := rows[..|rows| - 1], rows[|rows| - 1];
      AddUsersMeaning(init, ms, m);
      AddUserMeaning(AddUsers(init, ms), last, ms, m);
      if exists k :: 0 <= k < |rows| && m in rows[k].ratings {
        var k :| 0 <= k < |rows| && m in rows[k].ratings;
        if k < |init| {
          assert init[k] == rows[k];
        }
      }
      if exists k :: 0 <= k < |init| && m in init[k].ratings {
        var k :| 0 <= k < |init| && m in init[k].ratings;
        assert rows[k] == init[k];
      }
      TimesDistributes(Count(ms, m), SumSeq(init, RowWeight(m)), RowWeight(m)(last));
      TimesDistributes(Count(ms, m), SumSeq(init, RowContribution(m)), RowContribution(m)(last));
    }
  }

  lemma {:induction false} TimesZero(k: nat)
    ensures Times(k, 0.0) == 0.0
  {
    if k > 0 {
      TimesZero(k - 1);
    }
  }

  /** User `n` as a row: their ratings, their mean, and their weight with `u`. */
  ghost function RowFor(sqrt: real -> real, rs: seq<UserRating>, u: int, n: int): Row
    requires n in UsersOf(rs)
  {
    Row(RatingMap(rs, n), Mean(rs, n), Similarity(sqrt, rs, u, n))
  }

  /** The users `keys` as rows, in order. */
  ghost function Rows(sqrt: real -> real, rs: seq<UserRating>, u: int, keys: seq<int>): (r: seq<Row>)
    requires forall n :: n in keys ==> n in UsersOf(rs)
    ensures |r| == |keys|
    ensures forall i :: 0 <= i < |keys| ==> r[i] == RowFor(sqrt, rs, u, keys[i])
  {
    if keys == [] then [] else Rows(sqrt, rs, u, keys[..|keys| - 1]) + [RowFor(sqrt, rs, u, keys[|keys| - 1])]
  }

  /** Summed over the rows of all users, the row terms are the neighbour terms. */
  lemma {:induction false} RowsSums(sqrt: real -> real, rs: seq<UserRating>, u: int, m: int, keys: seq<int>)
    requires forall n :: n in keys ==> n in UsersOf(rs)
    ensures SumSeq(Rows(sqrt, rs, u, keys), RowWeight(m)) == SumSeq(keys, WeightTerm(sqrt, rs, u, m))
    ensures SumSeq(Rows(sqrt, rs, u, keys), RowContribution(m)) == SumSeq(keys, ContributionTerm(sqrt, rs, u, m))
  {
    if keys != [] {
      var init, n := keys[..|keys| - 1], keys[|keys| - 1];
      assert n in keys;
      RowsSums(sqrt, rs, u, m, init);
      var rows := Rows(sqrt, rs, u, keys);
      assert rows[..|rows| - 1] == Rows(sqrt, rs, u, init);
      assert RowWeight(m)(rows[|rows| - 1]) == WeightTerm(sqrt, rs, u, m)(n);
      assert RowContribution(m)(rows[|rows| - 1]) == ContributionTerm(sqrt, rs, u, m)(n);
    }
  }

  /** Some user's row holds a rating of `m` exactly when `m` has a neighbour. */
  lemma RowsRated(sqrt: real -> real, rs: seq<UserRating>, u: int, m: int, keys: seq<int>)
    requires Enumerates(keys, UsersOf(rs))
    ensures (exists k :: 0 <= k < |keys| && m in Rows(sqrt, rs, u, keys)[k].ratings) ==> Neighbours(rs, m) != {}
    ensures Neighbours(rs, m) != {} ==> exists k :: 0 <= k < |keys| && m in Rows(sqrt, rs, u, keys)[k].ratings
  {
    var rows := Rows(sqrt, rs, u, keys);
    if exists k :: 0 <= k < |keys| && m in rows[k].ratings {
      var k :| 0 <= k < |keys| && m in rows[k].ratings;
      assert rows[k] == RowFor(sqrt, rs, u, keys[k]);
      assert keys[k] in Neighbours(rs, m);
    }
    if Neighbours(rs, m) != {} {
      var n := Pick(Neighbours(rs, m));
      assert n in UsersOf(rs) && m in RatingMap(rs, n);
      var k :| 0 <= k < |keys| && keys[k] == n;
      assert rows[k] == RowFor(sqrt, rs, u, n);
      assert 0 <= k < |keys| && m in rows[k].ratings;
    }
  }

  /**
   The whole pass, from the records: a requested movie gets an entry exactly
   when someone rated it, holding the one-movie sums once per occurrence.
   */
  lemma AllScoresTotals(sqrt: real -> real, rs: seq<UserRating>, u: int, ms: seq<int>, keys: seq<int>, m: int)
    requires Enumerates(keys, UsersOf(rs))
    ensures m in AddUsers(Rows(sqrt, rs, u, keys), ms) <==> m in ms && Neighbours(rs, m) != {}
    ensures TotalsAt(AddUsers(Rows(sqrt, rs, u, keys), ms), m).sumOfWeights == Times(Count(ms, m), WeightSum(sqrt, rs, u, m))
    ensures TotalsAt(AddUsers(Rows(sqrt, rs, u, keys), ms), m).accumulated == Times(Count(ms, m), AccumulatedSum(sqrt, rs, u, m))
  {
    AddUsersMeaning(Rows(sqrt, rs, u, keys), ms, m);
    RowsSums(sqrt, rs, u, m, keys);
    OverAllUsers(sqrt, rs, u, m, keys);
    RowsRated(sqrt, rs, u, m, keys);
  }

  /** Sums that are `c` copies of the one-movie sums predict what the one-movie sums predict. */
  lemma RepeatedCombine(mean: real, c: nat, sumOfWeights: real, accumulated: real, totalWeights: real, totalAccumulated: real)
    requires c > 0 && sumOfWeights != 0.0
    requires totalWeights == Times(c, sumOfWeights) && totalAccumulated == Times(c, accumulated)
    ensures totalWeights != 0.0
    ensures Combine(mean, totalWeights, totalAccumulated) == Combine(mean, sumOfWeights, accumulated)
  {
    TimesIsProduct(c, sumOfWeights);
    TimesIsProduct(c, accumulated);
    ScaledCombine(mean, c as real, sumOfWeights, accumulated, totalWeights, totalAccumulated);
  }

  /** One rated movie of the list: its totals are a multiple of the one-movie sums, so they predict the same. */
  lemma OnePrediction(sqrt: real -> real, rs: seq<UserRating>, u: int, ms: seq<int>, keys: seq<int>, m: int, mean: real)
    requires Enumerates(keys, UsersOf(rs)) && u in UsersOf(rs)
    requires m in ms && Neighbours(rs, m) != {} && WeightSum(sqrt, rs, u, m) != 0.0
    requires mean == Mean(rs, u)
    ensures m in AddUsers(Rows(sqrt, rs, u, keys), ms)
    ensures AddUsers(Rows(sqrt, rs, u, keys), ms)[m].sumOfWeights != 0.0
    ensures Combine(mean, AddUsers(Rows(sqrt, rs, u, keys), ms)[m].sumOfWeights,
                    AddUsers(Rows(sqrt, rs, u, keys), ms)[m].accumulated) == Prediction(sqrt, rs, u, m)
  {
    var t := TotalsAt(AddUsers(Rows(sqrt, rs, u, keys), ms), m);
    AllScoresTotals(sqrt, rs, u, ms, keys, m);
    CountOccurs(ms, m);
    RepeatedCombine(mean, Count(ms, m), WeightSum(sqrt, rs, u, m), AccumulatedSum(sqrt, rs, u, m),
                    t.sumOfWeights, t.accumulated);
  }

  /** The pass over a list of movies keeps exactly the listed movies someone rated. */
  lemma PredictedMovies(sqrt: real -> real, rs: seq<UserRating>, u: int, ms: seq<int>, keys: seq<int>)
    requires Enumerates(keys, UsersOf(rs))
    ensures AddUsers(Rows(sqrt, rs, u, keys), ms).Keys == set m | m in ms && Neighbours(rs, m) != {}
  {
    var acc := AddUsers(Rows(sqrt, rs, u, keys), ms);
    var rated := set m | m in ms && Neighbours(rs, m) != {};
    forall m ensures m in acc.Keys <==> m in rated {
      AddUsersMeaning(Rows(sqrt, rs, u, keys), ms, m);
      RowsRated(sqrt, rs, u, m, keys);
    }
    assert acc.Keys == rated;
  }

  /** The whole pass over a list of movies ends with the one-movie prediction of every movie someone rated. */
  lemma AllPredictions(sqrt: real -> real, rs: seq<UserRating>, u: int, ms: seq<int>, keys: seq<int>,
                       acc: map<int, MovieTotals>, mean: real)
    requires Enumerates(keys, UsersOf(rs)) && u in UsersOf(rs)
    requires acc == AddUsers(Rows(sqrt, rs, u, keys), ms)
    requires forall m :: m in ms && Neighbours(rs, m) != {} ==> WeightSum(sqrt, rs, u, m) != 0.0
    requires mean == Mean(rs, u)
    ensures acc.Keys == set m | m in ms && Neighbours(rs, m) != {}
    ensures forall m :: m in acc ==>
      acc[m].sumOfWeights != 0.0 && Combine(mean, acc[m].sumOfWeights, acc[m].accumulated) == Prediction(sqrt, rs, u, m)
  {
    PredictedMovies(sqrt, rs, u, ms, keys);
    forall m | m in acc
      ensures acc[m].sumOfWeights != 0.0
      ensures Combine(mean, acc[m].sumOfWeights, acc[m].accumulated) == Prediction(sqrt, rs, u, m)
    {
      OnePrediction(sqrt, rs, u, ms, keys, m, mean);
    }
  }

  /** One movie's running sums while PredictAllScores visits the users. */
  class PearsonCache {
    var sumOfWeights: real
    var accumulated: real

    constructor (sumOfWeights: real, accumulated: real)
      ensures this.sumOfWeights == sumOfWeights && this.accumulated == accumulated
    {
      this.sumOfWeights := sumOfWeights;
      this.accumulated := accumulated;
    }

    /** One more neighbour: their weight and their weighted deviation are added. */
    method Update(weight: real, accumulated: real)
      modifies this
      ensures sumOfWeights == old(sumOfWeights) + weight
      ensures this.accumulated == old(this.accumulated) + accumulated
    {
      sumOfWeights := sumOfWeights + weight;
      this.accumulated := this.accumulated + accumulated;
    }
  }

  /**
   The dictionary of caches holds the sums `acc`, with a cache of its own per
   movie: `owner` (ghost) names the movie of every cache.
   */
  ghost predicate TracksCaches(dict: map<int, PearsonCache>, acc: map<int, MovieTotals>, owner: map<PearsonCache, int>)
    reads dict.Values
  {
    && dict.Keys == acc.Keys
    && forall m :: m in dict ==>
         && dict[m].sumOfWeights == acc[m].sumOfWeights && dict[m].accumulated == acc[m].accumulated
         && dict[m] in owner && owner[dict[m]] == m
  }

  /** User `n`'s entry holds the ratings and the mean of `row`. */
  ghost predicate EntryReady(users: map<int, UserRatingsCache>, n: int, row: Row)
    reads users.Values
  {
    n in users && users[n].Valid() && users[n].movieRatings == row.ratings && users[n].GetAverageRating() == row.mean
  }

  /** The weight of `row` is the defined weight between `u` and `n`. */
  ghost predicate WeightReady(sqrt: real -> real, rs: seq<UserRating>, u: int, n: int, row: Row)
  {
    u in UsersOf(rs) && n in UsersOf(rs) && Denominator(ProfileOf(rs, u), ProfileOf(rs, n)) != 0.0 &&
    row.weight == Similarity(sqrt, rs, u, n)
  }

  /** What the outer loop of PredictAllScores needs of each user in `keys`. */
  ghost predicate RowsReady(sqrt: real -> real, rs: seq<UserRating>, u: int, users: map<int, UserRatingsCache>,
                            keys: seq<int>, rows: seq<Row>)
    reads users.Values
  {
    |rows| == |keys| &&
    forall i {:trigger keys[i], rows[i]} :: 0 <= i < |keys| ==>
      EntryReady(users, keys[i], rows[i]) && WeightReady(sqrt, rs, u, keys[i], rows[i])
  }

  /** Every user is ready for the outer loop, with their row. */
  lemma RowsFacts(sqrt: real -> real, rs: seq<UserRating>, u: int, users: map<int, UserRatingsCache>, keys: seq<int>)
    requires WeightsDefined(rs, u, UsersOf(rs))
    requires users.Keys == UsersOf(rs)
    requires forall n :: n in users ==>
      users[n].Valid() && users[n].movieRatings == RatingMap(rs, n) && users[n].GetAverageRating() == Mean(rs, n)
    requires Enumerates(keys, UsersOf(rs))
    ensures RowsReady(sqrt, rs, u, users, keys, Rows(sqrt, rs, u, keys))
  {
    var rows := Rows(sqrt, rs, u, keys);
    forall i | 0 <= i < |keys|
      ensures EntryReady(users, keys[i], rows[i]) && WeightReady(sqrt, rs, u, keys[i], rows[i])
    {
      assert keys[i] in keys;
    }
  }

  // ---------------------------------------------------------------------
  // The predictor object
  // ---------------------------------------------------------------------

  class MovieScorePredictor {
    const pearsonCalculator: PearsonCoefficientCalculator

    ghost predicate Valid()
      reads this, pearsonCalculator, pearsonCalculator.userCache, pearsonCalculator.userCache.userRatingsCache.Values
    {
      pearsonCalculator.Valid()
    }

    constructor (pearsonCalculator: PearsonCoefficientCalculator)
      requires pearsonCalculator.Valid()
      ensures this.pearsonCalculator == pearsonCalculator
      ensures Valid()
    {
      this.pearsonCalculator := pearsonCalculator;
    }

    /** The records behind the calculator's cache. */
    ghost function Records(): seq<UserRating>
    {
      pearsonCalculator.userCache.records
    }

    /**
     The predicted rating of movie `movieId` by user `userId`: a weight for
     every user who rated the movie, then one division by the weight sum.
     */
    method PredictScore(userId: int, movieId: int) returns (prediction: real)
      requires Valid()
      requires WeightsDefined(Records(), userId, Neighbours(Records(), movieId))
      requires WeightSum(pearsonCalculator.sqrt, Records(), userId, movieId) != 0.0
      ensures prediction == Prediction(pearsonCalculator.sqrt, Records(), userId, movieId)
    {
      var userCache := pearsonCalculator.userCache;
      ghost var rs, sqrt := Records(), pearsonCalculator.sqrt;
      var users := userCache.GetAllUsersAndMovieRatings();
      var usersThatRatedMovie := set n | n in users && movieId in users[n].GetMovieRatings();
      RatersAreNeighbours(rs, movieId, users, usersThatRatedMovie);
      var sumOfWeights, accumulated := NeighbourSums(userId, movieId, users, usersThatRatedMovie);
      var averageRatingForUser := userCache.CalculateMeanRatingForUser(userId);
      prediction := Combine(averageRatingForUser, sumOfWeights, accumulated);
    }

    /** The two sums of PredictScore over the users that rated the movie. */
    method NeighbourSums(userId: int, movieId: int, users: map<int, UserRatingsCache>, usersThatRatedMovie: set<int>)
      returns (sumOfWeights: real, accumulated: real)
      requires Valid()
      requires WeightsDefined(Records(), userId, Neighbours(Records(), movieId))
      requires users.Keys == UsersOf(Records())
      requires forall n :: n in users ==>
        users[n].Valid() && users[n].movieRatings == RatingMap(Records(), n) &&
        users[n].GetAverageRating() == Mean(Records(), n)
      requires usersThatRatedMovie == Neighbours(Records(), movieId)
      ensures sumOfWeights == WeightSum(pearsonCalculator.sqrt, Records(), userId, movieId)
      ensures accumulated == AccumulatedSum(pearsonCalculator.sqrt, Records(), userId, movieId)
    {
      ghost var rs, sqrt := Records(), pearsonCalculator.sqrt;
      var keys := EnumerateKeys(usersThatRatedMovie);
      ghost var weightTerm, contributionTerm := WeightTerm(sqrt, rs, userId, movieId), ContributionTerm(sqrt, rs, userId, movieId);
      NeighbourFacts(pearsonCalculator, userId, movieId, users, keys);
      sumOfWeights, accumulated := SumOverNeighbours(userId, movieId, users, keys, weightTerm, contributionTerm);
      SumSeqEnumerates(keys, Neighbours(rs, movieId), weightTerm);
      SumSeqEnumerates(keys, Neighbours(rs, movieId), contributionTerm);
    }

    /**
     The loop of PredictScore, visiting the users that rated the movie in the
     order of `keys`: each adds their weight to the first sum and their
     weighted deviation from their own mean to the second.
     */
    method SumOverNeighbours(userId: int, movieId: int, users: map<int, UserRatingsCache>, keys: seq<int>,
                             ghost weightTerm: int -> real, ghost contributionTerm: int -> real)
      returns (sumOfWeights: real, accumulated: real)
      requires Valid()
      requires LoopReady(pearsonCalculator, userId, movieId, users, keys, weightTerm, contributionTerm)
      ensures sumOfWeights == SumSeq(keys, weightTerm)
      ensures accumulated == SumSeq(keys, contributionTerm)
    {
      sumOfWeights := 0.0;
      accumulated := 0.0;
      for i := 0 to |keys|
        invariant sumOfWeights == SumSeq(keys[..i], weightTerm)
        invariant accumulated == SumSeq(keys[..i], contributionTerm)
      {
        var n := keys[i];
        var weight := pearsonCalculator.Calculate(userId, n);
        sumOfWeights := sumOfWeights + weight;
        var localResult := Contribution(weight, users[n].GetMovieRatings()[movieId], users[n].GetAverageRating());
        accumulated := accumulated + localResult;
        SumsStep(keys, i, weightTerm, contributionTerm, weight, localResult);
      }
      assert keys[..|keys|] == keys;
    }

    /**
     The end of one inner-loop pass: create the movie's cache holding the
     neighbour's weight and contribution, or add them to the existing cache.
     */
    static method Record(dict: map<int, PearsonCache>, movieId: int, weight: real, localResult: real,
                         ghost acc: map<int, MovieTotals>, ghost owner: map<PearsonCache, int>)
      returns (dict': map<int, PearsonCache>, ghost acc': map<int, MovieTotals>, ghost owner': map<PearsonCache, int>)
      requires TracksCaches(dict, acc, owner)
      modifies if movieId in dict then {dict[movieId]} else {}
      ensures TracksCaches(dict', acc', owner') && acc' == Add(acc, movieId, weight, localResult)
      ensures fresh(dict'.Values - dict.Values)
    {
      acc' := Add(acc, movieId, weight, localResult);
      if movieId !in dict {
        var pearsonCache := new PearsonCache(weight, localResult);
        dict' := dict[movieId := pearsonCache];
        owner' := owner[pearsonCache := movieId];
        forall m | m in dict' && m != movieId ensures dict'[m] == dict[m] && dict'[m] != pearsonCache {
        }
      } else {
        var pearsonCache := dict[movieId];
        pearsonCache.Update(weight, localResult);
        dict', owner' := dict, owner;
        forall m | m in dict && m != movieId ensures dict[m] != pearsonCache {
          assert owner[dict[m]] != owner[pearsonCache];
        }
      }
    }

    /**
     The inner loop of PredictAllScores for one user: every listed movie the
     user rated gets the user's weight and weighted deviation.
     */
    static method AddUserRatings(dict: map<int, PearsonCache>, entry: UserRatingsCache, weight: real, movieIds: seq<int>,
                                 ghost acc: map<int, MovieTotals>, ghost owner: map<PearsonCache, int>)
      returns (dict': map<int, PearsonCache>, ghost acc': map<int, MovieTotals>, ghost owner': map<PearsonCache, int>)
      requires entry.Valid() && TracksCaches(dict, acc, owner)
      modifies dict.Values
      ensures TracksCaches(dict', acc', owner')
      ensures acc' == AddUser(acc, Row(entry.movieRatings, entry.GetAverageRating(), weight), movieIds)
      ensures fresh(dict'.Values - dict.Values)
    {
      ghost var row := Row(entry.movieRatings, entry.GetAverageRating(), weight);
      dict', acc', owner' := dict, acc, owner;
      for j := 0 to |movieIds|
        invariant TracksCaches(dict', acc', owner')
        invariant acc' == AddUser(acc, row, movieIds[..j])
        invariant fresh(dict'.Values - dict.Values)
      {
        var movieId := movieIds[j];
        assert movieIds[..j + 1][..j] == movieIds[..j];
        if movieId in entry.GetMovieRatings() {
          var localResult := Contribution(weight, entry.GetMovieRatings()[movieId], entry.GetAverageRating());
          dict', acc', owner' := Record(dict', movieId, weight, localResult, acc', owner');
        }
      }
      assert movieIds[..|movieIds|] == movieIds;
    }

    /** One turn of the outer loop of PredictAllScores: user `keys[i]`'s weight, then the inner loop. */
    method VisitUser(userId: int, movieIds: seq<int>, users: map<int, UserRatingsCache>, keys: seq<int>, ghost rows: seq<Row>,
                     i: int, dict: map<int, PearsonCache>, ghost acc: map<int, MovieTotals>, ghost owner: map<PearsonCache, int>)
      returns (dict': map<int, PearsonCache>, ghost acc': map<int, MovieTotals>, ghost owner': map<PearsonCache, int>)
      requires Valid() && RowsReady(pearsonCalculator.sqrt, Records(), userId, users, keys, rows) && 0 <= i < |keys|
      requires TracksCaches(dict, acc, owner) && acc == AddUsers(rows[..i], movieIds)
      modifies dict.Values
      ensures TracksCaches(dict', acc', owner') && acc' == AddUsers(rows[..i + 1], movieIds)
      ensures fresh(dict'.Values - dict.Values)
    {
      var n := keys[i];
      assert EntryReady(users, n, rows[i]) && WeightReady(pearsonCalculator.sqrt, Records(), userId, n, rows[i]);
      var weight := pearsonCalculator.Calculate(userId, n);
      assert rows[..i + 1][..i] == rows[..i];
      dict', acc', owner' := AddUserRatings(dict, users[n], weight, movieIds, acc, owner);
    }

    /**
     The outer loop of PredictAllScores: every user's weight, then the inner
     loop over the movies, in the order of `keys`.
     */
    method CollectTotals(userId: int, movieIds: seq<int>, users: map<int, UserRatingsCache>, keys: seq<int>,
                         ghost rows: seq<Row>)
      returns (dict: map<int, PearsonCache>, ghost acc: map<int, MovieTotals>, ghost owner: map<PearsonCache, int>)
      requires Valid()
      requires RowsReady(pearsonCalculator.sqrt, Records(), userId, users, keys, rows)
      ensures TracksCaches(dict, acc, owner) && acc == AddUsers(rows, movieIds)
      ensures fresh(dict.Values)
    {
      dict, acc, owner := map[], map[], map[];
      for i := 0 to |keys|
        invariant TracksCaches(dict, acc, owner)
        invariant acc == AddUsers(rows[..i], movieIds)
        invariant fresh(dict.Values)
      {
        dict, acc, owner := VisitUser(userId, movieIds, users, keys, rows, i, dict, acc, owner);
      }
      assert rows[..|keys|] == rows;
    }

    /** The final loop of PredictAllScores: one prediction per cache, from the sums `acc` it holds. */
    static method Predictions(averageRatingForUser: real, dict: map<int, PearsonCache>,
                              ghost acc: map<int, MovieTotals>, ghost owner: map<PearsonCache, int>)
      returns (resultDict: map<int, real>)
      requires TracksCaches(dict, acc, owner)
      requires forall m :: m in acc ==> acc[m].sumOfWeights != 0.0
      ensures resultDict.Keys == acc.Keys
      ensures forall m :: m in resultDict ==>
        resultDict[m] == Combine(averageRatingForUser, acc[m].sumOfWeights, acc[m].accumulated)
    {
      resultDict := map[];
      var keys := EnumerateKeys(dict.Keys);
      for k := 0 to |keys|
        invariant forall m :: m in resultDict <==> m in keys[..k]
        invariant forall m :: m in resultDict ==>
          m in acc && resultDict[m] == Combine(averageRatingForUser, acc[m].sumOfWeights, acc[m].accumulated)
      {
        var movieId := keys[k];
        var prediction := Combine(averageRatingForUser, dict[movieId].sumOfWeights, dict[movieId].accumulated);
        resultDict := resultDict[movieId := prediction];
        assert keys[..k + 1] == keys[..k] + [movieId];
      }
      assert keys[..|keys|] == keys;
      forall m ensures m in resultDict.Keys <==> m in acc.Keys {
        assert m in resultDict <==> m in keys;
      }
    }

    /**
     The predicted rating of every listed movie that some user rated, in one
     pass over the users; each equals the one-movie prediction.
     */
    method PredictAllScores(userId: int, movieIds: seq<int>) returns (result: map<int, real>)
      requires Valid()
      requires WeightsDefined(Records(), userId, UsersOf(Records()))
      requires forall m :: m in movieIds && Neighbours(Records(), m) != {} ==>
        WeightSum(pearsonCalculator.sqrt, Records(), userId, m) != 0.0
      ensures result.Keys == set m | m in movieIds && Neighbours(Records(), m) != {}
      ensures forall m :: m in result ==> result[m] == Prediction(pearsonCalculator.sqrt, Records(), userId, m)
    {
      var userCache := pearsonCalculator.userCache;
      ghost var rs, sqrt := Records(), pearsonCalculator.sqrt;
      var usersThatRatedCommonMovies := userCache.GetAllUsersAndMovieRatings();
      var keys := EnumerateKeys(usersThatRatedCommonMovies.Keys);
      var dict, acc, owner := UserTotals(userId, movieIds, usersThatRatedCommonMovies, keys);
      result := ScoresFromTotals(userId, movieIds, keys, dict, acc, owner);
    }

    /** The two loops of PredictAllScores over the cached users, in the order of `keys`. */
    method UserTotals(userId: int, movieIds: seq<int>, users: map<int, UserRatingsCache>, keys: seq<int>)
      returns (dict: map<int, PearsonCache>, ghost acc: map<int, MovieTotals>, ghost owner: map<PearsonCache, int>)
      requires Valid() && WeightsDefined(Records(), userId, UsersOf(Records()))
      requires users.Keys == UsersOf(Records())
      requires forall n :: n in users ==>
        users[n].Valid() && users[n].movieRatings == RatingMap(Records(), n) &&
        users[n].GetAverageRating() == Mean(Records(), n)
      requires Enumerates(keys, UsersOf(Records()))
      ensures TracksCaches(dict, acc, owner) && acc == AddUsers(Rows(pearsonCalculator.sqrt, Records(), userId, keys), movieIds)
      ensures fresh(dict.Values)
    {
      RowsFacts(pearsonCalculator.sqrt, Records(), userId, users, keys);
      dict, acc, owner := CollectTotals(userId, movieIds, users, keys, Rows(pearsonCalculator.sqrt, Records(), userId, keys));
    }

    /** The end of PredictAllScores: the user's mean, then the final loop over the caches. */
    method ScoresFromTotals(userId: int, movieIds: seq<int>, ghost keys: seq<int>, dict: map<int, PearsonCache>,
                            ghost acc: map<int, MovieTotals>, ghost owner: map<PearsonCache, int>)
      returns (result: map<int, real>)
      requires Valid() && userId in UsersOf(Records()) && Enumerates(keys, UsersOf(Records()))
      requires forall m :: m in movieIds && Neighbours(Records(), m) != {} ==>
        WeightSum(pearsonCalculator.sqrt, Records(), userId, m) != 0.0
      requires TracksCaches(dict, acc, owner) && acc == AddUsers(Rows(pearsonCalculator.sqrt, Records(), userId, keys), movieIds)
      ensures result.Keys == set m | m in movieIds && Neighbours(Records(), m) != {}
      ensures forall m :: m in result ==> result[m] == Prediction(pearsonCalculator.sqrt, Records(), userId, m)
    {
      var averageRatingForUser := pearsonCalculator.userCache.CalculateMeanRatingForUser(userId);
      AllPredictions(pearsonCalculator.sqrt, Records(), userId, movieIds, keys, acc, averageRatingForUser);
      result := Predictions(averageRatingForUser, dict, acc, owner);
    }
  }
}
