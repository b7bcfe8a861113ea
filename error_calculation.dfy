/**
 The two accuracy measures of a list of predictions: each is a `foreach`
 loop accumulating one term per prediction, then one division by the count.
 */
module MeanAbsoluteError {
  import opened Records
  import opened Sums

  /** How far one prediction is from the observed rating. */
  function AbsoluteError(p: MoviePrediction): real
  {
    Abs(p.realRating - p.prediction)
  }

  /** The mean of the absolute errors. */
  function Mae(predictions: seq<MoviePrediction>): (r: real)
    requires |predictions| > 0
    ensures r >= 0.0
  {
    SumSeqNonNegative(predictions, AbsoluteError);
    SumSeq(predictions, AbsoluteError) / |predictions| as real
  }

  /**
   The mean absolute error of a non-empty list (the source divides by the
   count without a guard).
   */
  method Calculate(predictions: seq<MoviePrediction>) returns (r: real)
    requires |predictions| > 0
    ensures r == Mae(predictions)
  {
    var numerator := 0.0;
    for i := 0 to |predictions|
      invariant numerator == SumSeq(predictions[..i], AbsoluteError)
    {
      var moviePrediction := predictions[i];
      var diff := moviePrediction.realRating - moviePrediction.prediction;
      SumSeqPrefix(predictions, i, AbsoluteError);
      numerator := numerator + Abs(diff);
    }
    assert predictions[..|predictions|] == predictions;
    r := numerator / |predictions| as real;
  }

  /** The error is zero exactly when every prediction equals its observed rating. */
  lemma ZeroIffExact(predictions: seq<MoviePrediction>)
    requires |predictions| > 0
    ensures Mae(predictions) == 0.0 <==> forall p :: p in predictions ==> p.prediction == p.realRating
  {
    SumSeqNonNegative(predictions, AbsoluteError);
    if forall p :: p in predictions ==> p.prediction == p.realRating {
      SumSeqZero(predictions, AbsoluteError);
    }
    if Mae(predictions) == 0.0 {
      var n := |predictions| as real;
      assert SumSeq(predictions, AbsoluteError) == Mae(predictions) * n;
      SumSeqZeroTerms(predictions, AbsoluteError);
    }
  }

  /** The order of the list does not matter. */
  lemma OrderIndependent(predictions: seq<MoviePrediction>, reordered: seq<MoviePrediction>)
    requires |predictions| > 0 && multiset(predictions) == multiset(reordered)
    ensures |reordered| == |predictions| && Mae(reordered) == Mae(predictions)
  {
    assert |multiset(predictions)| == |predictions| && |multiset(reordered)| == |reordered|;
    SumSeqPermutation(predictions, reordered, AbsoluteError);
  }

  /** Two predictions, one off by 1 and one exact: the mean absolute error is 0.5. */
  lemma Example()
    ensures Mae([MoviePrediction(5.0, 4.0), MoviePrediction(3.0, 3.0)]) == 0.5
  {
    var ps := [MoviePrediction(5.0, 4.0), MoviePrediction(3.0, 3.0)];
    assert ps[..1][..0] == [] && ps[..1] == [ps[0]];
    assert SumSeq(ps, AbsoluteError) == 1.0;
  }
}

module RootMeanSquareError {
  import opened Records
  import opened Sums

  /** The square of one prediction's error. */
  function SquaredError(p: MoviePrediction): real
  {
    (p.realRating - p.prediction) * (p.realRating - p.prediction)
  }

  /** The mean of the squared errors. */
  function MeanSquare(predictions: seq<MoviePrediction>): (r: real)
    requires |predictions| > 0
    ensures r >= 0.0
  {
    SumSeqNonNegative(predictions, SquaredError);
    SumSeq(predictions, SquaredError) / |predictions| as real
  }

  /**
   The root mean square error of a non-empty list; `sqrt` stands for
   `Math.Sqrt`.
   */
  method Calculate(predictions: seq<MoviePrediction>, sqrt: real -> real) returns (r: real)
    requires IsSqrt(sqrt) && |predictions| > 0
    ensures r >= 0.0 && r * r == MeanSquare(predictions)
  {
    var numerator := 0.0;
    for i := 0 to |predictions|
      invariant numerator == SumSeq(predictions[..i], SquaredError)
      invariant numerator >= 0.0
    {
      var moviePrediction := predictions[i];
      var diff := moviePrediction.realRating - moviePrediction.prediction;
      SumSeqPrefix(predictions, i, SquaredError);
      numerator := numerator + diff * diff;
    }
    assert predictions[..|predictions|] == predictions;
    r := sqrt(numerator / |predictions| as real);
  }

  /** A product of reals is zero only when a factor is. */
  lemma ZeroProduct(x: real, y: real)
    requires x * y == 0.0
    ensures x == 0.0 || y == 0.0
  {
    if x != 0.0 {
      assert y == (x * y) / x;
    }
  }

  /** The error is zero exactly when every prediction equals its observed rating. */
  lemma ZeroIffExact(predictions: seq<MoviePrediction>)
    requires |predictions| > 0
    ensures MeanSquare(predictions) == 0.0 <==> forall p :: p in predictions ==> p.prediction == p.realRating
  {
    forall p | p in predictions ensures SquaredError(p) >= 0.0 {
    }
    if forall p :: p in predictions ==> p.prediction == p.realRating {
      SumSeqZero(predictions, SquaredError);
    }
    if MeanSquare(predictions) == 0.0 {
      var n := |predictions| as real;
      assert SumSeq(predictions, SquaredError) == MeanSquare(predictions) * n;
      SumSeqZeroTerms(predictions, SquaredError);
      forall p | p in predictions ensures p.prediction == p.realRating {
        var d := p.realRating - p.prediction;
        assert SquaredError(p) == d * d;
        ZeroProduct(d, d);
      }
    }
  }

  /** What Calculate returns is zero exactly when every prediction equals its observed rating. */
  lemma RootZeroIffExact(predictions: seq<MoviePrediction>, r: real)
    requires |predictions| > 0 && r >= 0.0 && r * r == MeanSquare(predictions)
    ensures r == 0.0 <==> forall p :: p in predictions ==> p.prediction == p.realRating
  {
    ZeroIffExact(predictions);
    if MeanSquare(predictions) == 0.0 {
      ZeroProduct(r, r);
    }
  }

  /** The order of the list does not matter. */
  lemma OrderIndependent(predictions: seq<MoviePrediction>, reordered: seq<MoviePrediction>)
    requires |predictions| > 0 && multiset(predictions) == multiset(reordered)
    ensures |reordered| == |predictions| && MeanSquare(reordered) == MeanSquare(predictions)
  {
    assert |multiset(predictions)| == |predictions| && |multiset(reordered)| == |reordered|;
    SumSeqPermutation(predictions, reordered, SquaredError);
  }

  /** Two predictions, one off by 1 and one exact: the mean square is 0.5. */
  lemma Example()
    ensures MeanSquare([MoviePrediction(5.0, 4.0), MoviePrediction(3.0, 3.0)]) == 0.5
  {
    var ps := [MoviePrediction(5.0, 4.0), MoviePrediction(3.0, 3.0)];
    assert ps[..1][..0] == [] && ps[..1] == [ps[0]];
    assert SumSeq(ps, SquaredError) == 1.0;
  }
}
