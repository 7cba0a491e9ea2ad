/** Option, Result and the errors the aggregation layer can raise. */
module Results {

  datatype Option<+T> = None | Some(value: T)

  /** Why an operation failed. The wrapping constructors correspond to the
      prefixes the source puts in front of the underlying message. */
  datatype Error =
    | Transport                          // an upstream HTTP call failed
    | NoBlocksForDate                    // the by-date response was not an array
    | MissingField(name: string)         // a cached value lacks the field the caller reads
    | BlockDataFailed(cause: Error)      // "Failed to fetch block data: ..."
    | AddressFailed(cause: Error)        // "Failed to fetch transactions for address: ..."
    | DateFailed(millis: int, cause: Error)  // "Failed to fetch block data for date ...: ..."
    | AddressTotalFailed(cause: Error)   // "Failed to calculate total energy consumption for address: ..."

  datatype Result<+T> = Ok(value: T) | Err(error: Error)
}
