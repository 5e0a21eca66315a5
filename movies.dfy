/** Values shared by the two pages: an optional value and one recommended film. */
module Movies {

  /** An absent or present value (a JSON field that may be undefined, a storage lookup). */
  datatype Option<+T> = None | Some(value: T)

  /** The `movie_data` object of one recommended film, as the backend sends it. */
  datatype MovieData = MovieData(imageUrl: string, movieTitle: string, yearReleased: int)

  /** One element of the `result` array of a finished poll; its position in the array is its rank. */
  datatype Item = Item(movieId: string, movieData: MovieData, predictedRating: real)
}
