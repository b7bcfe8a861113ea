/**
 The stand-alone mean-vote table (MeanVoteCalculator.cs). A first pass over
 the records accumulates a count and a sum per user in `UserRatingAccumulator`
 objects; a second pass over that dictionary freezes the user -> mean table.
 Unlike the user cache it does not key ratings by movie, so a repeated
 (user, movie) pair is simply counted again.
 */
module MeanVote {
  import opened Records
  import opened Sums
  import opened Cache

  // ---------------------------------------------------------------------
  // What the first pass computes, record by record
  // ---------------------------------------------------------------------

  /** One user's count and sum, as an accumulator keeps them. */
  datatype Totals = Totals(count: nat, sum: real)

  /**
   The first pass on one record: a known user's totals grow by the record,
   a new user starts at count 1 and sum = the record's rating.
   */
  function Accumulate(ts: map<int, Totals>, x: UserRating): map<int, Totals>
  {
    if x.userId in ts then ts[x.userId := Totals(ts[x.userId].count + 1, ts[x.userId].sum + x.rating)]
    else ts[x.userId := Totals(1, x.rating)]
  }

  /** The totals after the first pass over `rs`. */
  function Accumulated(rs: seq<UserRating>): map<int, Totals>
  {
    if rs == [] then map[] else Accumulate(Accumulated(rs[..|rs| - 1]), rs[|rs| - 1])
  }

  lemma AccumulatedStep(rs: seq<UserRating>, i: int)
    requires 0 <= i < |rs|
    ensures Accumulated(rs[..i + 1]) == Accumulate(Accumulated(rs[..i]), rs[i])
  {
    assert rs[..i + 1][..i] == rs[..i];
  }

  /**
   The first pass has one entry per user of the records, holding the number of
   that user's records and the sum of their ratings, repeated pairs included.
   */
  lemma {:induction false} AccumulatedMeaning(rs: seq<UserRating>)
    ensures Accumulated(rs).Keys == UsersOf(rs)
    ensures forall u :: u in Accumulated(rs) ==> Accumulated(rs)[u] == Totals(CountOf(rs, u), SumOf(rs, u))
    decreases |rs|
  {
    if rs != [] {
      var init, x := rs[..|rs| - 1], rs[|rs| - 1];
      assert rs == init + [x];
      AccumulatedMeaning(init);
      AppendRecord(init, x);
      if x.userId !in UsersOf(init) {
        AbsentUser(init, x.userId);
      }
    }
  }

  // ---------------------------------------------------------------------
  // Properties of the table the calculator freezes
  // ---------------------------------------------------------------------

  /** The indicator of user `u`'s records, so that a count is a sum. */
  function OneForUser(u: int): UserRating -> real
  {
    (r: UserRating) => if r.userId == u then 1.0 else 0.0
  }

  lemma {:induction false} CountAsSum(rs: seq<UserRating>, u: int)
    ensures CountOf(rs, u) as real == SumSeq(rs, OneForUser(u))
    decreases |rs|
  {
    if rs != [] {
      CountAsSum(rs[..|rs| - 1], u);
    }
  }

  /** A user's records and mean do not depend on the order of the records. */
  lemma MeanPermutation(rs: seq<UserRating>, rs': seq<UserRating>, u: int)
    requires multiset(rs) == multiset(rs')
    ensures u in UsersOf(rs) <==> u in UsersOf(rs')
    ensures u in UsersOf(rs) ==> Mean(rs, u) == Mean(rs', u)
  {
    CountAsSum(rs, u);
    CountAsSum(rs', u);
    SumSeqPermutation(rs, rs', OneForUser(u));
    SumSeqPermutation(rs, rs', RatingOfUser(u));
    assert CountOf(rs, u) == CountOf(rs', u);
    if u in UsersOf(rs) {
      CountPositive(rs, u);
    } else {
      AbsentUser(rs, u);
    }
    if u in UsersOf(rs') {
      CountPositive(rs', u);
    } else {
      AbsentUser(rs', u);
    }
  }

  /** Every rating of `u` lies in [lo, hi]. */
  predicate RatingsWithin(rs: seq<UserRating>, u: int, lo: real, hi: real)
  {
    forall i :: 0 <= i < |rs| && rs[i].userId == u ==> lo <= rs[i].rating <= hi
  }

  lemma {:induction false} SumWithin(rs: seq<UserRating>, u: int, lo: real, hi: real)
    requires RatingsWithin(rs, u, lo, hi)
    ensures lo * CountOf(rs, u) as real <= SumOf(rs, u) <= hi * CountOf(rs, u) as real
    decreases |rs|
  {
    if rs != [] {
      var init := rs[..|rs| - 1];
      assert RatingsWithin(init, u, lo, hi) by {
        forall i | 0 <= i < |init| && init[i].userId == u ensures lo <= init[i].rating <= hi {
          assert init[i] == rs[i];
        }
      }
      SumWithin(init, u, lo, hi);
    }
  }

  /** A user's mean lies between the lowest and the highest of their ratings. */
  lemma MeanWithin(rs: seq<UserRating>, u: int, lo: real, hi: real)
    requires u in UsersOf(rs)
    requires RatingsWithin(rs, u, lo, hi)
    ensures lo <= Mean(rs, u) <= hi
  {
    SumWithin(rs, u, lo, hi);
    CountPositive(rs, u);
    Between(lo, hi, Mean(rs, u), CountOf(rs, u) as real, SumOf(rs, u));
  }

  /** A value that, times a positive count, gives a sum between lo and hi times that count lies between lo and hi. */
  lemma Between(lo: real, hi: real, m: real, c: real, s: real)
    requires c > 0.0 && m * c == s && lo * c <= s <= hi * c
    ensures lo <= m <= hi
  {
    CancelPositive(lo, m, c);
    CancelPositive(m, hi, c);
  }

  // ---------------------------------------------------------------------
  // The objects
  // ---------------------------------------------------------------------

  /** One user's running count and sum. */
  class UserRatingAccumulator {
    var ratingCount: int
    var ratingsAccumulated: real

    /** Starts from the user's first rating: count 1, so the average is always defined. */
    constructor (rating: real)
      ensures ratingCount == 1 && ratingsAccumulated == rating
    {
      ratingsAccumulated := rating;
      ratingCount := 1;
    }

    method AddRating(rating: real)
      modifies this
      ensures ratingCount == old(ratingCount) + 1
      ensures ratingsAccumulated == old(ratingsAccumulated) + rating
    {
      ratingCount := ratingCount + 1;
      ratingsAccumulated := ratingsAccumulated + rating;
    }

    /** The average: the value that, times the count, gives the sum. */
    function GetAverageRatings(): (r: real)
      reads this
      requires ratingCount >= 1
      ensures r * ratingCount as real == ratingsAccumulated
    {
      ratingsAccumulated / ratingCount as real
    }
  }

  /** `a` holds the totals `t`. */
  ghost predicate Tracks(a: UserRatingAccumulator, t: Totals)
    reads a
  {
    a.ratingCount >= 1 && a.ratingCount == t.count && a.ratingsAccumulated == t.sum
  }

  /** The first pass's invariant: `dict` holds the totals `ts` of the records `rs`, one object per user. */
  ghost predicate Accumulates(rs: seq<UserRating>, dict: map<int, UserRatingAccumulator>,
                              ts: map<int, Totals>, owner: map<UserRatingAccumulator, int>)
    reads dict.Values
  {
    && ts == Accumulated(rs)
    && dict.Keys == ts.Keys
    && (forall u :: u in dict ==> Tracks(dict[u], ts[u]))
    && (forall u :: u in dict ==> dict[u] in owner && owner[dict[u]] == u)
  }

  /** An accumulator holding user `u`'s totals averages to `u`'s mean. */
  lemma AverageIsMean(a: UserRatingAccumulator, rs: seq<UserRating>, u: int)
    requires u in Accumulated(rs) && Tracks(a, Accumulated(rs)[u])
    ensures u in UsersOf(rs) && a.GetAverageRatings() == Mean(rs, u)
  {
    AccumulatedMeaning(rs);
    MeanCharacterized(rs, u, a.GetAverageRatings(), a.ratingCount, a.ratingsAccumulated);
  }

  class MeanVoteCalculator {
    /** The records the table was built from. */
    ghost const records: seq<UserRating>
    var meanVoteCache: map<int, real>

    /** One entry per user of the records, holding that user's mean. */
    ghost predicate Valid()
      reads this
    {
      && meanVoteCache.Keys == UsersOf(records)
      && forall u :: u in meanVoteCache ==> meanVoteCache[u] == Mean(records, u)
    }

    /**
     One pass of the first loop: the record's user's accumulator takes the
     rating when present, a new accumulator is created otherwise.
     */
    static method AccumulateRecord(rs: seq<UserRating>, i: int, dict: map<int, UserRatingAccumulator>,
                                   ghost ts: map<int, Totals>, ghost owner: map<UserRatingAccumulator, int>)
      returns (dict': map<int, UserRatingAccumulator>, ghost ts': map<int, Totals>,
               ghost owner': map<UserRatingAccumulator, int>)
      requires 0 <= i < |rs|
      requires Accumulates(rs[..i], dict, ts, owner)
      modifies if rs[i].userId in dict then {dict[rs[i].userId]} else {}
      ensures Accumulates(rs[..i + 1], dict', ts', owner')
      ensures rs[i].userId in dict ==> dict' == dict
      ensures rs[i].userId !in dict ==>
                rs[i].userId in dict' && fresh(dict'[rs[i].userId]) &&
                dict' == dict[rs[i].userId := dict'[rs[i].userId]]
    {
      var userRating := rs[i];
      AccumulatedStep(rs, i);
      ts' := Accumulate(ts, userRating);
      if userRating.userId in dict {
        var ratingAccumulator := dict[userRating.userId];
        ratingAccumulator.AddRating(userRating.rating);
        dict', owner' := dict, owner;
        forall u | u in dict' ensures Tracks(dict'[u], ts'[u]) {
          if u != userRating.userId {
            assert owner[dict[u]] != owner[ratingAccumulator];
          }
        }
      } else {
        var ratingAccumulator := new UserRatingAccumulator(userRating.rating);
        dict' := dict[userRating.userId := ratingAccumulator];
        owner' := owner[ratingAccumulator := userRating.userId];
        forall u | u in dict' ensures Tracks(dict'[u], ts'[u]) {
          if u != userRating.userId {
            assert dict'[u] == dict[u];
          }
        }
      }
    }

    /**
     The second loop: one mean per accumulated user. The dictionary is
     enumerated in an order the model leaves open.
     */
    static method FreezeMeans(dict: map<int, UserRatingAccumulator>, ghost rs: seq<UserRating>,
                              ghost ts: map<int, Totals>)
      returns (means: map<int, real>)
      requires ts == Accumulated(rs) && dict.Keys == ts.Keys
      requires forall u :: u in dict ==> Tracks(dict[u], ts[u])
      ensures means.Keys == UsersOf(rs)
      ensures forall u :: u in means ==> means[u] == Mean(rs, u)
    {
      AccumulatedMeaning(rs);
      assert dict.Keys == UsersOf(rs);
      means := map[];
      var remaining := dict.Keys;
      while remaining != {}
        invariant remaining <= dict.Keys
        invariant means.Keys == dict.Keys - remaining
        invariant forall u :: u in means ==> u in UsersOf(rs) && means[u] == Mean(rs, u)
        decreases |remaining|
      {
        HasElement(remaining);
        var userId :| userId in remaining;
        var average := dict[userId].GetAverageRatings();
        AverageIsMean(dict[userId], rs, userId);
        means := means[userId := average];
        remaining := remaining - {userId};
      }
    }

    /** Builds the table: the accumulation pass, then one mean per accumulated user. */
    constructor (userRatings: seq<UserRating>)
      ensures records == userRatings
      ensures Valid()
    {
      var dict: map<int, UserRatingAccumulator> := map[];
      ghost var totals: map<int, Totals> := map[];
      ghost var owner: map<UserRatingAccumulator, int> := map[];
      var i := 0;
      while i < |userRatings|
        invariant 0 <= i <= |userRatings|
        invariant Accumulates(userRatings[..i], dict, totals, owner)
        invariant forall u :: u in dict ==> fresh(dict[u])
      {
        dict, totals, owner := AccumulateRecord(userRatings, i, dict, totals, owner);
        i := i + 1;
      }
      assert userRatings[..i] == userRatings;
      var means := FreezeMeans(dict, userRatings, totals);
      records := userRatings;
      meanVoteCache := means;
    }

    /** The user's mean; the user must occur in the records (the lookup throws otherwise). */
    function CalculateMeanRatingForUser(userId: int): (r: real)
      reads this
      requires Valid()
      requires userId in UsersOf(records)
      ensures r * CountOf(records, userId) as real == SumOf(records, userId)
      ensures r == Mean(records, userId)
    {
      meanVoteCache[userId]
    }
  }

  /**
   On records without a repeated (user, movie) pair, the table and the user
   cache built from the same records give every user the same mean, and that
   mean is the mean of the values in the user's cached dictionary.
   */
  lemma MeanVoteMatchesUserCache(table: MeanVoteCalculator, cache: UserCache, u: int)
    requires table.Valid() && cache.Valid() && table.records == cache.records
    requires NoDuplicatePairs(cache.records)
    requires u in UsersOf(cache.records)
    ensures table.CalculateMeanRatingForUser(u) == cache.CalculateMeanRatingForUser(u)
    ensures |cache.GetUserMovieRatings(u)| >= 1
    ensures table.CalculateMeanRatingForUser(u)
            == SumValues(cache.GetUserMovieRatings(u)) / |cache.GetUserMovieRatings(u)| as real
  {
    MeanOfStoredRatings(cache.records, u);
  }
}
