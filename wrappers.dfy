/** Option and Result values, and the exceptions the loaders throw. */
module Wrappers {

  datatype Option<+T> = None | Some(value: T)

  /** A failure-compatible result, usable with `:-`. */
  datatype Result<+T, +E> = Ok(value: T) | Err(error: E) {
    predicate IsFailure() {
      Err?
    }

    function PropagateFailure<U>(): Result<U, E>
      requires Err?
    {
      Err(error)
    }

    function Extract(): T
      requires Ok?
    {
      value
    }
  }

  /** The `std::runtime_error`s (and the JSON library's `type_error`) that end a load. */
  datatype LoadError =
    | JsonTypeError                   // a config entry does not hold the requested JSON type
    | UnrecognizedVoxelType(name: string)
    | VectorTooLarge                  // the buffer size exceeds std::vector's max_size(): length_error
    | ReadFailed(path: string)        // the raw file could not be opened or is too short
    | QueryFailed                     // OpenVisus rejected the full-resolution box query
    | IdxUnsupported                  // built without OpenVisus
}
