/** Option and Result types standing for C# null references and thrown exceptions. */
module Wrappers {

  /** `None` stands for a C# null reference. */
  datatype Option<+T> = None | Some(value: T)

  /** The exceptions the modelled code can raise. */
  datatype Error =
    | ArgumentNull        // ArgumentNullException
    | UnknownBlock        // "Block data with id ... does not exist"
    | InvalidDirection    // "Invalid direction"
    | DuplicateKey        // Dictionary.Add with a key that is already present
    | KeyNotFound         // Dictionary indexer with a missing key
    | NullReference       // dereferencing null
    | InvalidOperation    // Enumerable.First with no matching element
    | NotImplemented      // "Terrain type not implemented."
    | NotLoaded           // "World is not loaded yet."
    | MissingTopTexture   // "Top texture is null"
    | Cancelled           // OperationCanceledException

  /** The outcome of a call that either returns a value or throws. */
  datatype Result<+T> = Ok(value: T) | Err(error: Error)

  /** The outcome of a call that returns nothing or throws. */
  datatype Outcome = Pass | Fail(error: Error)
}
