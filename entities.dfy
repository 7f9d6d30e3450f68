/**
 * The two records exchanged with the server and stored in the local database
 * (model/Recipe.kt and model/Course.kt). Ratings are modelled as exact reals:
 * the `Double` arithmetic of the source is not modelled.
 */
module Entities {
  import opened Seqs

  datatype Recipe = Recipe(
    id: int,
    date: string,
    title: string,
    ingredients: string,
    category: string,
    rating: real)

  datatype Course = Course(
    id: int,
    name: string,
    instructor: string,
    description: string,
    status: string,
    students: int,
    duration: int)

  function Rating(r: Recipe): real { r.rating }

  /** `map { it.rating }.average()` of a non-empty list, as an exact mean. */
  function Average(rs: seq<Recipe>): real {
    if rs == [] then 0.0 else SumOf(rs, Rating) / (|rs| as real)
  }
}
