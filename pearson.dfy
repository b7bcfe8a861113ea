/**
 The similarity weight between two users (PearsonCoefficientCalculator.cs).
 Over the movies both users rated, with d1 and d2 each user's deviation from
 their own mean, the weight is

     sum of d1*d2  /  sqrt(sum of (d1*d2)^2)

 Note the denominator: it is the sum of the squared products, not the
 product of the two users' sums of squared deviations of textbook Pearson
 correlation, so the weight is not confined to [-1, 1] (`WeightCanExceedOne`);
 it is bounded by the square root of the number of co-rated movies instead
 (`WeightBound`).
 */
module Pearson {
  import opened Records
  import opened Sums
  import opened Cache

  // ---------------------------------------------------------------------
  // The weight, as a function of the two users' profiles
  // ---------------------------------------------------------------------

  /** The movies both users rated. */
  function CoRated(p1: Profile, p2: Profile): set<int>
  {
    p1.ratings.Keys * p2.ratings.Keys
  }

  /** The product of the two users' deviations from their means on movie `m`; 0 unless both rated it. */
  function ProductAt(p1: Profile, p2: Profile, m: int): real
  {
    if m in p1.ratings && m in p2.ratings then (p1.ratings[m] - p1.mean) * (p2.ratings[m] - p2.mean) else 0.0
  }

  function Product(p1: Profile, p2: Profile): int -> real
  {
    (m: int) => ProductAt(p1, p2, m)
  }

  function SquaredProduct(p1: Profile, p2: Profile): int -> real
  {
    Squared(Product(p1, p2))
  }

  ghost function Numerator(p1: Profile, p2: Profile): real
  {
    SumSet(CoRated(p1, p2), Product(p1, p2))
  }

  ghost function Denominator(p1: Profile, p2: Profile): real
  {
    SumSet(CoRated(p1, p2), SquaredProduct(p1, p2))
  }

  /** The weight; undefined (0/0 in the source) when the denominator is zero. */
  ghost function Weight(sqrt: real -> real, p1: Profile, p2: Profile): real
    requires sqrt(Denominator(p1, p2)) != 0.0
  {
    Numerator(p1, p2) / sqrt(Denominator(p1, p2))
  }

  // ---------------------------------------------------------------------
  // Properties of the weight
  // ---------------------------------------------------------------------

  /** Swapping the two users changes neither sum, hence not the weight. */
  lemma Symmetric(sqrt: real -> real, p1: Profile, p2: Profile)
    ensures CoRated(p1, p2) == CoRated(p2, p1)
    ensures Numerator(p1, p2) == Numerator(p2, p1)
    ensures Denominator(p1, p2) == Denominator(p2, p1)
    ensures sqrt(Denominator(p1, p2)) != 0.0 ==> Weight(sqrt, p1, p2) == Weight(sqrt, p2, p1)
  {
    var s := CoRated(p1, p2);
    assert s == CoRated(p2, p1);
    forall m | m in s ensures Product(p1, p2)(m) == Product(p2, p1)(m) {
      ProductSwap(p1, p2, m);
    }
    forall m | m in s ensures SquaredProduct(p1, p2)(m) == SquaredProduct(p2, p1)(m) {
      ProductSwap(p1, p2, m);
    }
    SumSetExt(s, Product(p1, p2), Product(p2, p1));
    SumSetExt(s, SquaredProduct(p1, p2), SquaredProduct(p2, p1));
  }

  lemma ProductSwap(p1: Profile, p2: Profile, m: int)
    ensures ProductAt(p1, p2, m) == ProductAt(p2, p1, m)
  {
  }

  /** The denominator is a sum of squares. */
  lemma DenominatorNonNegative(p1: Profile, p2: Profile)
    ensures Denominator(p1, p2) >= 0.0
  {
    SumSetNonNegative(CoRated(p1, p2), SquaredProduct(p1, p2));
  }

  /**
   The denominator is zero exactly when every co-rated product is zero (in
   particular when nothing is co-rated); the numerator is then zero too, so the
   source computes 0/0.
   */
  lemma DenominatorZero(p1: Profile, p2: Profile)
    ensures Denominator(p1, p2) == 0.0 <==> forall m :: m in CoRated(p1, p2) ==> Product(p1, p2)(m) == 0.0
    ensures Denominator(p1, p2) == 0.0 ==> Numerator(p1, p2) == 0.0
    ensures CoRated(p1, p2) == {} ==> Denominator(p1, p2) == 0.0
  {
    var s := CoRated(p1, p2);
    if Denominator(p1, p2) == 0.0 {
      SumSetZeroTerms(s, SquaredProduct(p1, p2));
      forall m | m in s ensures Product(p1, p2)(m) == 0.0 {
        SquareZero(ProductAt(p1, p2, m));
      }
      SumSetZero(s, Product(p1, p2));
    }
    if forall m :: m in s ==> Product(p1, p2)(m) == 0.0 {
      SumSetZero(s, SquaredProduct(p1, p2));
    }
  }

  /** Only zero squares to zero. */
  lemma SquareZero(x: real)
    ensures x * x == 0.0 ==> x == 0.0
  {
    if x != 0.0 {
      assert (x * x) / x == x;
    }
  }

  /**
   The weight is at most the square root of the number of co-rated movies in
   absolute value: the square of the numerator is at most that number times
   the denominator (Cauchy-Schwarz).
   */
  lemma WeightBound(sqrt: real -> real, p1: Profile, p2: Profile)
    requires IsSqrt(sqrt) && Denominator(p1, p2) != 0.0
    ensures sqrt(Denominator(p1, p2)) > 0.0
    ensures Weight(sqrt, p1, p2) * Weight(sqrt, p1, p2) <= |CoRated(p1, p2)| as real
  {
    DenominatorNonNegative(p1, p2);
    SqrtPositive(sqrt, Denominator(p1, p2));
    NumeratorSquareBound(p1, p2);
    RatioBound(Weight(sqrt, p1, p2), Numerator(p1, p2), sqrt(Denominator(p1, p2)),
               Denominator(p1, p2), |CoRated(p1, p2)| as real);
  }

  /** The square of the numerator is at most the number of co-rated movies times the denominator. */
  lemma NumeratorSquareBound(p1: Profile, p2: Profile)
    ensures Numerator(p1, p2) * Numerator(p1, p2) <= |CoRated(p1, p2)| as real * Denominator(p1, p2)
  {
    SquareOfSum(CoRated(p1, p2), Product(p1, p2), Numerator(p1, p2), Denominator(p1, p2));
  }

  /** Two records of user 7: movie 1 rated 1.0 and movie 2 rated 3.0. */
  function TwoRatings(): seq<UserRating>
  {
    [UserRating(7, 1, 1.0), UserRating(7, 2, 3.0)]
  }

  /** User 7's profile in `TwoRatings`: both ratings, mean 2.0. */
  lemma TwoRatingsProfile()
    ensures 7 in UsersOf(TwoRatings())
    ensures ProfileOf(TwoRatings(), 7) == Profile(map[1 := 1.0, 2 := 3.0], 2.0)
  {
    var rs := TwoRatings();
    assert rs[..1] == [UserRating(7, 1, 1.0)] && rs[..1][..0] == [];
    assert UsersOf(rs) == {7};
    assert CountOf(rs, 7) == 2;
    assert SumSeq(rs[..1], RatingOfUser(7)) == 1.0;
    assert SumOf(rs, 7) == 4.0;
    assert Mean(rs, 7) == SumOf(rs, 7) / CountOf(rs, 7) as real;
    assert RatingMap(rs, 7) == map[1 := 1.0, 2 := 3.0];
  }

  /**
   User 7 of `TwoRatings` has, with themself, numerator 2 and denominator 2,
   so the weight is sqrt(2) > 1: the formula is not the textbook
   correlation, which never exceeds 1.
   */
  lemma WeightCanExceedOne(sqrt: real -> real)
    requires IsSqrt(sqrt)
    ensures 7 in UsersOf(TwoRatings())
    ensures var p := ProfileOf(TwoRatings(), 7);
            Numerator(p, p) == 2.0 && Denominator(p, p) == 2.0 && Weight(sqrt, p, p) > 1.0
  {
    TwoRatingsProfile();
    var p := Profile(map[1 := 1.0, 2 := 3.0], 2.0);
    TwoRatingsSums(p);
    var r := sqrt(2.0);
    SqrtPositive(sqrt, 2.0);
    DivUnique(r, 2.0, r);
    assert Weight(sqrt, p, p) == r;
    SquareAboveOne(r);
  }

  /** Deviations -1.0 and 1.0: both sums over the two movies are 2.0. */
  lemma TwoRatingsSums(p: Profile)
    requires p == Profile(map[1 := 1.0, 2 := 3.0], 2.0)
    ensures Numerator(p, p) == 2.0 && Denominator(p, p) == 2.0
  {
    var s := CoRated(p, p);
    assert s == {1, 2};
    SumSetRemove(s, Product(p, p), 1);
    SumSetRemove(s, SquaredProduct(p, p), 1);
    assert s - {1} == {2};
    SumSetRemove({2}, Product(p, p), 2);
    SumSetRemove({2}, SquaredProduct(p, p), 2);
    assert {2} - {2} == {};
    assert Numerator(p, p) == 2.0;
    assert Denominator(p, p) == 2.0;
  }

  /** A positive number whose square is 2 exceeds 1. */
  lemma SquareAboveOne(r: real)
    requires r > 0.0 && r * r == 2.0
    ensures r > 1.0
  {
    assert (r - 1.0) * (r + 1.0) == r * r - 1.0;
  }

  /** A user's similarity with themself is a sum of squares over their own movies. */
  lemma SelfNumeratorNonNegative(p: Profile)
    ensures CoRated(p, p) == p.ratings.Keys
    ensures Numerator(p, p) >= 0.0
  {
    SumSetNonNegative(CoRated(p, p), Product(p, p));
  }

  /**
   The loop of the calculation: walks user 1's ratings, skips the movies user 2
   did not rate, and adds up the deviation products and their squares.
   */
  method CoRatedSums(ratings1: map<int, real>, mean1: real, ratings2: map<int, real>, mean2: real)
    returns (numerator: real, denominator: real)
    ensures numerator == Numerator(Profile(ratings1, mean1), Profile(ratings2, mean2))
    ensures denominator == Denominator(Profile(ratings1, mean1), Profile(ratings2, mean2))
  {
    var p1, p2 := Profile(ratings1, mean1), Profile(ratings2, mean2);
    var userId1Movies := EnumerateKeys(ratings1.Keys);
    numerator := 0.0;
    denominator := 0.0;
    for i := 0 to |userId1Movies|
      invariant numerator == SumSeq(userId1Movies[..i], Product(p1, p2))
      invariant denominator == SumSeq(userId1Movies[..i], SquaredProduct(p1, p2))
    {
      var movieId := userId1Movies[i];
      SumSeqPrefix(userId1Movies, i, Product(p1, p2));
      SumSeqPrefix(userId1Movies, i, SquaredProduct(p1, p2));
      SquaredProductAt(p1, p2, movieId);
      if movieId in ratings2 {
        var diffForUser1 := ratings1[movieId] - mean1;
        var diffForUser2 := ratings2[movieId] - mean2;
        var localNumerator := diffForUser1 * diffForUser2;
        DeviationProduct(p1, p2, movieId, diffForUser1, diffForUser2);
        var localDenominator := localNumerator * localNumerator;
        numerator := numerator + localNumerator;
        denominator := denominator + localDenominator;
      } else {
        assert ProductAt(p1, p2, movieId) == 0.0;
      }
    }
    assert userId1Movies[..|userId1Movies|] == userId1Movies;
    OverFirstUsersMovies(p1, p2, userId1Movies);
  }

  /** On a co-rated movie, the product of the two deviations is the movie's term. */
  lemma DeviationProduct(p1: Profile, p2: Profile, m: int, diff1: real, diff2: real)
    requires m in p1.ratings && m in p2.ratings
    requires diff1 == p1.ratings[m] - p1.mean && diff2 == p2.ratings[m] - p2.mean
    ensures diff1 * diff2 == ProductAt(p1, p2, m)
  {
  }

  lemma SquaredProductAt(p1: Profile, p2: Profile, m: int)
    ensures SquaredProduct(p1, p2)(m) == ProductAt(p1, p2, m) * ProductAt(p1, p2, m)
  {
  }

  /** Summing over user 1's movies in any order is summing over the co-rated movies. */
  lemma OverFirstUsersMovies(p1: Profile, p2: Profile, keys: seq<int>)
    requires Enumerates(keys, p1.ratings.Keys)
    ensures SumSeq(keys, Product(p1, p2)) == Numerator(p1, p2)
    ensures SumSeq(keys, SquaredProduct(p1, p2)) == Denominator(p1, p2)
  {
    SumSeqEnumerates(keys, p1.ratings.Keys, Product(p1, p2));
    SumSeqEnumerates(keys, p1.ratings.Keys, SquaredProduct(p1, p2));
    SumSetZeroOutside(p1.ratings.Keys, CoRated(p1, p2), Product(p1, p2));
    SumSetZeroOutside(p1.ratings.Keys, CoRated(p1, p2), SquaredProduct(p1, p2));
  }

  // ---------------------------------------------------------------------
  // The calculator object
  // ---------------------------------------------------------------------

  class PearsonCoefficientCalculator {
    const userCache: UserCache
    /** `Math.Sqrt`, given to the calculator as a function satisfying `IsSqrt`. */
    const sqrt: real -> real

    ghost predicate Valid()
      reads this, userCache, userCache.userRatingsCache.Values
    {
      userCache.Valid() && IsSqrt(sqrt)
    }

    constructor (userCache: UserCache, sqrt: real -> real)
      requires userCache.Valid() && IsSqrt(sqrt)
      ensures this.userCache == userCache && this.sqrt == sqrt
      ensures Valid()
    {
      this.userCache := userCache;
      this.sqrt := sqrt;
    }

    /** The profile the cache holds for user `u`. */
    ghost function ProfileFor(u: int): Profile
      reads this, userCache
      requires u in UsersOf(userCache.records)
    {
      ProfileOf(userCache.records, u)
    }

    /**
     The weight between two cached users. Both must be in the cache (the
     lookups throw otherwise) and the denominator must be non-zero (the source
     divides without a guard).
     */
    method Calculate(userId1: int, userId2: int) returns (result: real)
      requires Valid()
      requires userId1 in UsersOf(userCache.records) && userId2 in UsersOf(userCache.records)
      requires Denominator(ProfileFor(userId1), ProfileFor(userId2)) != 0.0
      ensures sqrt(Denominator(ProfileFor(userId1), ProfileFor(userId2))) != 0.0
      ensures result == Weight(sqrt, ProfileFor(userId1), ProfileFor(userId2))
    {
      var userId1AverageRating := userCache.CalculateMeanRatingForUser(userId1);
      var userId1Ratings := userCache.GetUserMovieRatings(userId1);
      var userId2AverageRating := userCache.CalculateMeanRatingForUser(userId2);
      var userId2Ratings := userCache.GetUserMovieRatings(userId2);
      ghost var p1 := Profile(userId1Ratings, userId1AverageRating);
      ghost var p2 := Profile(userId2Ratings, userId2AverageRating);
      assert p1 == ProfileFor(userId1) && p2 == ProfileFor(userId2);
      var numerator, denominator := CoRatedSums(userId1Ratings, userId1AverageRating,
                                                userId2Ratings, userId2AverageRating);
      DenominatorNonNegative(p1, p2);
      SqrtPositive(sqrt, denominator);
      result := numerator / sqrt(denominator);
    }
  }

  /** The square root of a positive number is positive. */
  lemma SqrtPositive(sqrt: real -> real, x: real)
    requires IsSqrt(sqrt) && x > 0.0
    ensures sqrt(x) > 0.0
  {
  }
}
