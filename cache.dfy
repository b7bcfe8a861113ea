/**
 The per-user rating cache (UserCache.cs). It is built once from the list of
 training records: for every user it keeps a movie -> rating dictionary and a
 running count and sum, so that the user's mean is sum / count; it also keeps
 the set of every movie id seen.

 The first half of the module states, as functions of the record list, what
 the cache holds after construction; the classes below are proved to hold
 exactly that.
 */
module Cache {
  import opened Records
  import opened Sums

  // ---------------------------------------------------------------------
  // What the records say, user by user
  // ---------------------------------------------------------------------

  /** Every user id that occurs in the records. */
  function UsersOf(rs: seq<UserRating>): set<int>
  {
    if rs == [] then {} else UsersOf(rs[..|rs| - 1]) + {rs[|rs| - 1].userId}
  }

  /** Every movie id that occurs in the records. */
  function MoviesOf(rs: seq<UserRating>): set<int>
  {
    if rs == [] then {} else MoviesOf(rs[..|rs| - 1]) + {rs[|rs| - 1].movieId}
  }

  /** How many records belong to user `u`. */
  function CountOf(rs: seq<UserRating>, u: int): nat
  {
    if rs == [] then 0
    else CountOf(rs[..|rs| - 1], u) + (if rs[|rs| - 1].userId == u then 1 else 0)
  }

  function RatingOfUser(u: int): UserRating -> real
  {
    (r: UserRating) => if r.userId == u then r.rating else 0.0
  }

  /** The sum of the ratings in user `u`'s records. */
  function SumOf(rs: seq<UserRating>, u: int): real
  {
    SumSeq(rs, RatingOfUser(u))
  }

  /**
   User `u`'s movie -> rating dictionary. Only used on record lists without
   a repeated (user, movie) pair, where no update overwrites a key.
   */
  function RatingMap(rs: seq<UserRating>, u: int): map<int, real>
  {
    if rs == [] then map[]
    else
      var m := RatingMap(rs[..|rs| - 1], u);
      var r := rs[|rs| - 1];
      if r.userId == u then m[r.movieId := r.rating] else m
  }

  /** No user rates the same movie twice: what `Dictionary.Add` in the cache demands. */
  predicate NoDuplicatePairs(rs: seq<UserRating>)
  {
    forall i, j :: 0 <= i < j < |rs| ==> rs[i].userId != rs[j].userId || rs[i].movieId != rs[j].movieId
  }

  /** User `u`'s mean rating: the sum of their ratings over the number of their records. */
  function Mean(rs: seq<UserRating>, u: int): (r: real)
    requires u in UsersOf(rs)
    ensures r * CountOf(rs, u) as real == SumOf(rs, u)
  {
    CountPositive(rs, u);
    SumOf(rs, u) / CountOf(rs, u) as real
  }

  /** What the similarity and the predictor read about one user. */
  datatype Profile = Profile(ratings: map<int, real>, mean: real)

  function ProfileOf(rs: seq<UserRating>, u: int): Profile
    requires u in UsersOf(rs)
  {
    Profile(RatingMap(rs, u), Mean(rs, u))
  }

  function ValueAt(m: map<int, real>): int -> real
  {
    (k: int) => if k in m then m[k] else 0.0
  }

  /** The sum of the values stored in a dictionary. */
  ghost function SumValues(m: map<int, real>): real
  {
    SumSet(m.Keys, ValueAt(m))
  }

  lemma SumValuesAdd(m: map<int, real>, k: int, v: real)
    requires k !in m
    ensures SumValues(m[k := v]) == SumValues(m) + v
    ensures |m[k := v]| == |m| + 1
  {
    var m' := m[k := v];
    assert m'.Keys == m.Keys + {k};
    SumSetAdd(m.Keys, ValueAt(m'), k);
    SumSetExt(m.Keys, ValueAt(m'), ValueAt(m));
  }

  /** One user's running totals, as the cache keeps them: count, sum and dictionary. */
  datatype Tally = Tally(count: nat, sum: real, ratings: map<int, real>)

  /** The totals of a user seen for the first time, before their first rating is added. */
  const NoRatings := Tally(0, 0.0, map[])

  /** The totals after one more rating of `movieId`. */
  function AddTo(t: Tally, rating: real, movieId: int): Tally
  {
    Tally(t.count + 1, t.sum + rating, t.ratings[movieId := rating])
  }

  /** One pass of the constructor's loop on the totals: the record's user gets the record. */
  function Step(ts: map<int, Tally>, x: UserRating): map<int, Tally>
  {
    ts[x.userId := AddTo(if x.userId in ts then ts[x.userId] else NoRatings, x.rating, x.movieId)]
  }

  /** The totals the constructor builds, one record after the other. */
  function Tallies(rs: seq<UserRating>): map<int, Tally>
  {
    if rs == [] then map[] else Step(Tallies(rs[..|rs| - 1]), rs[|rs| - 1])
  }

  // ---------------------------------------------------------------------
  // Lemmas about the record-level description
  // ---------------------------------------------------------------------

  /** Appending one record: its user and movie join the id sets, its user's
      count, sum and dictionary grow by it, and every other user is unchanged. */
  lemma AppendRecord(rs: seq<UserRating>, x: UserRating)
    ensures UsersOf(rs + [x]) == UsersOf(rs) + {x.userId}
    ensures MoviesOf(rs + [x]) == MoviesOf(rs) + {x.movieId}
    ensures CountOf(rs + [x], x.userId) == CountOf(rs, x.userId) + 1
    ensures SumOf(rs + [x], x.userId) == SumOf(rs, x.userId) + x.rating
    ensures RatingMap(rs + [x], x.userId) == RatingMap(rs, x.userId)[x.movieId := x.rating]
    ensures forall v :: v != x.userId ==>
              && CountOf(rs + [x], v) == CountOf(rs, v)
              && SumOf(rs + [x], v) == SumOf(rs, v)
              && RatingMap(rs + [x], v) == RatingMap(rs, v)
  {
    assert (rs + [x])[..|rs|] == rs;
  }

  /** `UsersOf` is exactly the set of user ids in the records. */
  lemma {:induction false} UsersOfExactly(rs: seq<UserRating>, u: int)
    ensures u in UsersOf(rs) <==> exists i :: 0 <= i < |rs| && rs[i].userId == u
    decreases |rs|
  {
    if rs != [] {
      var init := rs[..|rs| - 1];
      UsersOfExactly(init, u);
      if u in UsersOf(init) {
        var i :| 0 <= i < |init| && init[i].userId == u;
        assert rs[i] == init[i];
      }
      if exists i :: 0 <= i < |rs| && rs[i].userId == u {
        var i :| 0 <= i < |rs| && rs[i].userId == u;
        if i < |init| {
          assert init[i] == rs[i];
        }
      }
    }
  }

  /** `MoviesOf` is exactly the set of movie ids in the records. */
  lemma {:induction false} MoviesOfExactly(rs: seq<UserRating>, m: int)
    ensures m in MoviesOf(rs) <==> exists i :: 0 <= i < |rs| && rs[i].movieId == m
    decreases |rs|
  {
    if rs != [] {
      var init := rs[..|rs| - 1];
      MoviesOfExactly(init, m);
      if m in MoviesOf(init) {
        var i :| 0 <= i < |init| && init[i].movieId == m;
        assert rs[i] == init[i];
      }
      if exists i :: 0 <= i < |rs| && rs[i].movieId == m {
        var i :| 0 <= i < |rs| && rs[i].movieId == m;
        if i < |init| {
          assert init[i] == rs[i];
        }
      }
    }
  }

  /** A user without records has count 0, sum 0 and an empty dictionary. */
  lemma {:induction false} AbsentUser(rs: seq<UserRating>, u: int)
    requires u !in UsersOf(rs)
    ensures CountOf(rs, u) == 0 && SumOf(rs, u) == 0.0 && RatingMap(rs, u) == map[]
    decreases |rs|
  {
    if rs != [] {
      AbsentUser(rs[..|rs| - 1], u);
    }
  }

  /** Extending a prefix of the records by the next record extends the totals and the movies by it. */
  lemma PrefixStep(rs: seq<UserRating>, i: int)
    requires 0 <= i < |rs|
    ensures Tallies(rs[..i + 1]) == Step(Tallies(rs[..i]), rs[i])
    ensures MoviesOf(rs[..i + 1]) == MoviesOf(rs[..i]) + {rs[i].movieId}
  {
    assert rs[..i + 1][..i] == rs[..i];
  }

  /** The constructor's totals are the record-level count, sum and dictionary of every user. */
  lemma {:induction false} TalliesMeaning(rs: seq<UserRating>)
    ensures Tallies(rs).Keys == UsersOf(rs)
    ensures forall u :: u in Tallies(rs) ==> Tallies(rs)[u] == Tally(CountOf(rs, u), SumOf(rs, u), RatingMap(rs, u))
    decreases |rs|
  {
    if rs != [] {
      var init, x := rs[..|rs| - 1], rs[|rs| - 1];
      assert rs == init + [x];
      TalliesMeaning(init);
      AppendRecord(init, x);
      if x.userId !in UsersOf(init) {
        AbsentUser(init, x.userId);
      }
    }
  }

  /** Without repeated pairs, a record's movie is not yet in its user's totals
      built from the records before it. */
  lemma NewPairNotTallied(rs: seq<UserRating>, i: int)
    requires NoDuplicatePairs(rs)
    requires 0 <= i < |rs|
    ensures rs[i].userId in Tallies(rs[..i]) ==> rs[i].movieId !in Tallies(rs[..i])[rs[i].userId].ratings
  {
    NewPairNotStored(rs, i);
    TalliesMeaning(rs[..i]);
  }

  /** Every user in the records has at least one record, so the mean is defined. */
  lemma {:induction false} CountPositive(rs: seq<UserRating>, u: int)
    requires u in UsersOf(rs)
    ensures CountOf(rs, u) >= 1
    decreases |rs|
  {
    var init := rs[..|rs| - 1];
    if rs[|rs| - 1].userId != u {
      CountPositive(init, u);
    }
  }

  /** The mean is the one value that, times the user's count, gives the user's sum. */
  lemma MeanCharacterized(rs: seq<UserRating>, u: int, r: real, count: int, sum: real)
    requires u in UsersOf(rs)
    requires count == CountOf(rs, u) && sum == SumOf(rs, u)
    requires r * count as real == sum
    ensures r == Mean(rs, u)
  {
    CountPositive(rs, u);
    assert Mean(rs, u) == sum / count as real;
    DivUnique(r, sum, count as real);
  }

  /** Movie `m` is a key of user `u`'s dictionary exactly when some record pairs `u` with `m`. */
  lemma {:induction false} RatingMapKeys(rs: seq<UserRating>, u: int, m: int)
    ensures m in RatingMap(rs, u) <==> exists i :: 0 <= i < |rs| && rs[i].userId == u && rs[i].movieId == m
    decreases |rs|
  {
    if rs != [] {
      var init := rs[..|rs| - 1];
      RatingMapKeys(init, u, m);
      if m in RatingMap(init, u) {
        var i :| 0 <= i < |init| && init[i].userId == u && init[i].movieId == m;
        assert rs[i] == init[i];
      }
      if exists i :: 0 <= i < |rs| && rs[i].userId == u && rs[i].movieId == m {
        var i :| 0 <= i < |rs| && rs[i].userId == u && rs[i].movieId == m;
        if i < |init| {
          assert init[i] == rs[i];
        }
      }
    }
  }

  /** Without repeated pairs, each of `u`'s records is stored under its movie with its own rating. */
  lemma {:induction false} RatingMapValues(rs: seq<UserRating>, i: int)
    requires NoDuplicatePairs(rs)
    requires 0 <= i < |rs|
    ensures rs[i].movieId in RatingMap(rs, rs[i].userId)
    ensures RatingMap(rs, rs[i].userId)[rs[i].movieId] == rs[i].rating
    decreases |rs|
  {
    var init := rs[..|rs| - 1];
    if i < |init| {
      assert init[i] == rs[i];
      assert NoDuplicatePairs(init) by {
        forall a, b | 0 <= a < b < |init|
          ensures init[a].userId != init[b].userId || init[a].movieId != init[b].movieId
        {
          assert init[a] == rs[a] && init[b] == rs[b];
        }
      }
      RatingMapValues(init, i);
      assert rs[|rs| - 1].userId != rs[i].userId || rs[|rs| - 1].movieId != rs[i].movieId;
    }
  }

  /** Without repeated pairs, a record's movie is not yet in its user's dictionary
      built from the records before it. */
  lemma NewPairNotStored(rs: seq<UserRating>, i: int)
    requires NoDuplicatePairs(rs)
    requires 0 <= i < |rs|
    ensures rs[i].movieId !in RatingMap(rs[..i], rs[i].userId)
  {
    var prefix := rs[..i];
    RatingMapKeys(prefix, rs[i].userId, rs[i].movieId);
    forall j | 0 <= j < |prefix|
      ensures prefix[j].userId != rs[i].userId || prefix[j].movieId != rs[i].movieId
    {
      assert prefix[j] == rs[j];
    }
  }

  /** Without repeated pairs, user `u`'s dictionary has one entry per record of `u`,
      and its values add up to the sum of `u`'s ratings. */
  lemma {:induction false} RatingMapMatchesCounts(rs: seq<UserRating>, u: int)
    requires NoDuplicatePairs(rs)
    ensures |RatingMap(rs, u)| == CountOf(rs, u)
    ensures SumValues(RatingMap(rs, u)) == SumOf(rs, u)
    decreases |rs|
  {
    if rs == [] {
      assert RatingMap(rs, u).Keys == {};
    } else {
      var init := rs[..|rs| - 1];
      var x := rs[|rs| - 1];
      assert rs == init + [x];
      assert NoDuplicatePairs(init) by {
        forall a, b | 0 <= a < b < |init|
          ensures init[a].userId != init[b].userId || init[a].movieId != init[b].movieId
        {
          assert init[a] == rs[a] && init[b] == rs[b];
        }
      }
      RatingMapMatchesCounts(init, u);
      AppendRecord(init, x);
      if x.userId == u {
        NewPairNotStored(rs, |rs| - 1);
        SumValuesAdd(RatingMap(init, u), x.movieId, x.rating);
      }
    }
  }

  /** Without repeated pairs, the user's mean is the mean of the values in their dictionary. */
  lemma MeanOfStoredRatings(rs: seq<UserRating>, u: int)
    requires NoDuplicatePairs(rs) && u in UsersOf(rs)
    ensures |RatingMap(rs, u)| >= 1
    ensures Mean(rs, u) == SumValues(RatingMap(rs, u)) / |RatingMap(rs, u)| as real
  {
    RatingMapMatchesCounts(rs, u);
    CountPositive(rs, u);
  }

  // ---------------------------------------------------------------------
  // The cache objects
  // ---------------------------------------------------------------------

  /** One user's ratings: the movie -> rating dictionary with a running count and sum. */
  class UserRatingsCache {
    var ratingCount: int
    var ratingsAccumulated: real
    var movieRatings: map<int, real>

    /** One count per stored rating, and at least one, so the mean is defined. */
    ghost predicate Valid()
      reads this
    {
      ratingCount == |movieRatings| && ratingCount >= 1
    }

    constructor (rating: real, movieId: int)
      ensures Valid()
      ensures ratingCount == 1 && ratingsAccumulated == rating
      ensures movieRatings == map[movieId := rating]
    {
      movieRatings := map[];
      ratingCount := 0;
      ratingsAccumulated := 0.0;
      new;
      AddRating(rating, movieId);
    }

    /** Records one more rating; the movie must not be rated yet (`Dictionary.Add` throws otherwise). */
    method AddRating(rating: real, movieId: int)
      requires ratingCount == |movieRatings|
      requires movieId !in movieRatings
      modifies this
      ensures Valid()
      ensures ratingCount == old(ratingCount) + 1
      ensures ratingsAccumulated == old(ratingsAccumulated) + rating
      ensures movieRatings == old(movieRatings)[movieId := rating]
    {
      ratingCount := ratingCount + 1;
      ratingsAccumulated := ratingsAccumulated + rating;
      movieRatings := movieRatings[movieId := rating];
    }

    /** The running sum over the number of stored ratings, never zero. */
    function GetAverageRating(): (r: real)
      reads this
      requires Valid()
      ensures r * ratingCount as real == ratingsAccumulated
    {
      ratingsAccumulated / ratingCount as real
    }

    function GetMovieRatings(): (r: map<int, real>)
      reads this
      requires Valid()
      ensures |r| == ratingCount >= 1
    {
      movieRatings
    }
  }

  /**
   `cache` and `movies` hold what the records `rs` say: one entry per user of
   `rs`, with that user's totals, and every movie of `rs`.
   */
  ghost predicate Describes(cache: map<int, UserRatingsCache>, movies: set<int>, rs: seq<UserRating>)
    reads cache.Values
  {
    Stores(cache, Tallies(rs)) && movies == MoviesOf(rs)
  }

  /** An entry holding user `u`'s totals averages to `u`'s mean. */
  lemma StoredMean(rs: seq<UserRating>, u: int, c: UserRatingsCache)
    requires u in UsersOf(rs)
    requires Holds(c, Tally(CountOf(rs, u), SumOf(rs, u), RatingMap(rs, u)))
    ensures c.GetAverageRating() == Mean(rs, u)
  {
    assert c.GetAverageRating() == c.ratingsAccumulated / c.ratingCount as real;
    assert Mean(rs, u) == SumOf(rs, u) / CountOf(rs, u) as real;
  }

  /** One entry per user of `ts`, holding that user's totals. */
  ghost predicate Stores(cache: map<int, UserRatingsCache>, ts: map<int, Tally>)
    reads cache.Values
  {
    && cache.Keys == ts.Keys
    && forall u :: u in cache ==> Holds(cache[u], ts[u])
  }

  /** `c` holds the totals `t`. */
  ghost predicate Holds(c: UserRatingsCache, t: Tally)
    reads c
  {
    && c.Valid()
    && c.ratingCount == t.count
    && c.ratingsAccumulated == t.sum
    && c.movieRatings == t.ratings
  }

  /** The constructor's loop invariant: the cache, movies and totals describe the records `rs`. */
  ghost predicate Built(rs: seq<UserRating>, cache: map<int, UserRatingsCache>, movies: set<int>,
                        totals: map<int, Tally>, owner: map<UserRatingsCache, int>)
    reads cache.Values
  {
    totals == Tallies(rs) && movies == MoviesOf(rs) && Stores(cache, totals) && Owned(cache, owner)
  }

  /** `owner` maps every entry of `cache` back to its key, so no two keys share an entry. */
  ghost predicate Owned(cache: map<int, UserRatingsCache>, owner: map<UserRatingsCache, int>)
  {
    forall u :: u in cache ==> cache[u] in owner && owner[cache[u]] == u
  }

  class UserCache {
    /** The records the cache was built from. */
    ghost const records: seq<UserRating>
    var userRatingsCache: map<int, UserRatingsCache>
    var movieIds: set<int>

    ghost predicate Valid()
      reads this, userRatingsCache.Values
    {
      Describes(userRatingsCache, movieIds, records)
    }

    /**
     One pass of the constructor's loop: record `rs[i]` in the movie set and in
     its user's entry, extending the entry when present and creating it
     otherwise. `owner` (ghost) names the user of every entry, so that distinct
     users have distinct entries.
     */
    static method StoreRecord(rs: seq<UserRating>, i: int, cache: map<int, UserRatingsCache>, movies: set<int>,
                              ghost totals: map<int, Tally>, ghost owner: map<UserRatingsCache, int>)
      returns (cache': map<int, UserRatingsCache>, movies': set<int>,
               ghost totals': map<int, Tally>, ghost owner': map<UserRatingsCache, int>)
      requires NoDuplicatePairs(rs) && 0 <= i < |rs|
      requires Built(rs[..i], cache, movies, totals, owner)
      modifies if rs[i].userId in cache then {cache[rs[i].userId]} else {}
      ensures Built(rs[..i + 1], cache', movies', totals', owner')
      ensures rs[i].userId in cache ==> cache' == cache
      ensures rs[i].userId !in cache ==>
                rs[i].userId in cache' && fresh(cache'[rs[i].userId]) &&
                cache' == cache[rs[i].userId := cache'[rs[i].userId]]
    {
      var userRating := rs[i];
      PrefixStep(rs, i);
      NewPairNotTallied(rs, i);
      movies' := movies + {userRating.movieId};
      if userRating.userId in cache {
        ExtendEntry(cache, userRating, totals, owner);
        cache', owner' := cache, owner;
      } else {
        cache', owner' := CreateEntry(cache, userRating, totals, owner);
      }
      totals' := Step(totals, userRating);
    }

    /** The user already has an entry: their ratings cache records one more rating. */
    static method ExtendEntry(cache: map<int, UserRatingsCache>, x: UserRating,
                              ghost ts: map<int, Tally>, ghost owner: map<UserRatingsCache, int>)
      requires Stores(cache, ts) && Owned(cache, owner)
      requires x.userId in cache && x.movieId !in ts[x.userId].ratings
      modifies cache[x.userId]
      ensures Stores(cache, Step(ts, x))
    {
      var ratingsCache := cache[x.userId];
      ratingsCache.AddRating(x.rating, x.movieId);
      forall u | u in cache ensures Holds(cache[u], Step(ts, x)[u]) {
        if u != x.userId {
          assert owner[cache[u]] != owner[ratingsCache];
        }
      }
    }

    /** The user is new: a fresh ratings cache holding their first rating is added. */
    static method CreateEntry(cache: map<int, UserRatingsCache>, x: UserRating,
                              ghost ts: map<int, Tally>, ghost owner: map<UserRatingsCache, int>)
      returns (cache': map<int, UserRatingsCache>, ghost owner': map<UserRatingsCache, int>)
      requires Stores(cache, ts) && Owned(cache, owner)
      requires x.userId !in cache
      ensures Stores(cache', Step(ts, x)) && Owned(cache', owner')
      ensures x.userId in cache' && fresh(cache'[x.userId])
      ensures cache' == cache[x.userId := cache'[x.userId]]
    {
      var ratingsCache := new UserRatingsCache(x.rating, x.movieId);
      cache' := cache[x.userId := ratingsCache];
      owner' := owner[ratingsCache := x.userId];
      forall u | u in cache' ensures Holds(cache'[u], Step(ts, x)[u]) {
        if u != x.userId {
          assert cache'[u] == cache[u];
        }
      }
    }

    /** Builds the cache in one pass over the records. */
    constructor (userRatings: seq<UserRating>)
      requires NoDuplicatePairs(userRatings)
      ensures records == userRatings
      ensures Valid()
    {
      var cache: map<int, UserRatingsCache> := map[];
      var movies: set<int> := {};
      ghost var totals: map<int, Tally> := map[];
      ghost var owner: map<UserRatingsCache, int> := map[];
      var i := 0;
      while i < |userRatings|
        invariant 0 <= i <= |userRatings|
        invariant Built(userRatings[..i], cache, movies, totals, owner)
        invariant forall u :: u in cache ==> fresh(cache[u])
      {
        cache, movies, totals, owner := StoreRecord(userRatings, i, cache, movies, totals, owner);
        i := i + 1;
      }
      assert userRatings[..i] == userRatings;
      records := userRatings;
      userRatingsCache := cache;
      movieIds := movies;
    }

    /** The user's mean rating; the user must occur in the records (the lookup throws otherwise). */
    function CalculateMeanRatingForUser(userId: int): (r: real)
      reads this, userRatingsCache.Values
      requires Valid()
      requires userId in UsersOf(records)
      ensures r == Mean(records, userId)
    {
      TalliesMeaning(records);
      StoredMean(records, userId, userRatingsCache[userId]);
      userRatingsCache[userId].GetAverageRating()
    }

    /** The user's movie -> rating dictionary; the user must occur in the records. */
    function GetUserMovieRatings(userId: int): (r: map<int, real>)
      reads this, userRatingsCache.Values
      requires Valid()
      requires userId in UsersOf(records)
      ensures r == RatingMap(records, userId)
      ensures |r| == CountOf(records, userId)
    {
      TalliesMeaning(records);
      userRatingsCache[userId].GetMovieRatings()
    }

    /** Every user with their ratings: one entry per user of the records. */
    function GetAllUsersAndMovieRatings(): (r: map<int, UserRatingsCache>)
      reads this, userRatingsCache.Values
      requires Valid()
      ensures r.Keys == UsersOf(records)
      ensures forall u :: u in r ==> r[u].Valid() && r[u].movieRatings == RatingMap(records, u)
      ensures forall u :: u in r ==> r[u].GetAverageRating() == Mean(records, u)
    {
      TalliesMeaning(records);
      forall u | u in userRatingsCache ensures userRatingsCache[u].GetAverageRating() == Mean(records, u) {
        StoredMean(records, u, userRatingsCache[u]);
      }
      userRatingsCache
    }

    /** Every movie id that occurs in the records. */
    function MovieIds(): (r: set<int>)
      reads this, userRatingsCache.Values
      requires Valid()
      ensures forall m :: m in r <==> exists i :: 0 <= i < |records| && records[i].movieId == m
    {
      forall m ensures m in movieIds <==> exists i :: 0 <= i < |records| && records[i].movieId == m {
        MoviesOfExactly(records, m);
      }
      movieIds
    }
  }
}
