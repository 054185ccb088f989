/** The contract's error taxonomy and the `Result` its entry points return. */
module Error {

  /** The two errors the contract raises. There is no variant for a store that
      was never instantiated: that case aborts (see `TryUpdateScore`). */
  datatype ContractError = Unauthorized | AddressNotFound

  /** `Result<T, ContractError>`. */
  datatype Result<T> = Ok(value: T) | Err(error: ContractError)
}
