/** The exceptions the generation scripts can raise, and a result type that
    carries either a value or one of them. */
module Outcome {

  /** `ValueError` from `generate_stats` for an unknown distribution name,
      `IndexError` from `valid_cards[0]` on an empty pool, and `ValueError`
      from `random.sample` when the population is smaller than the sample. */
  datatype Failure =
    | InvalidDistribution
    | EmptyPool
    | SampleLargerThanPopulation

  datatype Result<+T> = Ok(value: T) | Err(error: Failure)

  datatype Option<+T> = None | Some(value: T)
}
