/** Optional values and results with an error, for the operations of the
    ranking engine that get_predictions.py lets fail (a division by zero). */
module Results {

  datatype Option<+T> = None | Some(value: T)

  datatype Result<+T, +E> = Success(value: T) | Failure(error: E)
}
