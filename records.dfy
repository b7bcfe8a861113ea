/**
 The records the engine consumes and produces, reduced to the fields the
 core reads. Ratings are single-precision floats in the repository; here
 they are `real`, so rounding is not modelled.
 */
module Records {

  /** One observed rating: user `userId` gave movie `movieId` the value `rating`. */
  datatype UserRating = UserRating(userId: int, movieId: int, rating: real)

  /** A predicted rating next to the rating that was actually observed. */
  datatype MoviePrediction = MoviePrediction(realRating: real, prediction: real)
}
