/** Types the contract borrows from its host environment and from Rust's core
    library: addresses, 32-bit signed integers, optional values and the
    response a contract entry point hands back to the host. */
module Host {

  /** An account address as the host hands it over: an already validated,
      opaque string compared byte for byte. */
  type Addr = string

  const I32_MIN: int := -0x8000_0000
  const I32_MAX: int := 0x7fff_ffff

  /** Rust's `i32`. The contract does no arithmetic on scores, so only the
      range matters: every value of the type is accepted and stored as is. */
  type I32 = x: int | I32_MIN <= x <= I32_MAX

  datatype Option<T> = None | Some(value: T)

  /** One key/value attribute of a response (an event attribute). */
  datatype Attribute = Attribute(key: string, value: string)

  /** The response of an entry point: how many sub-messages it asks the host to
      dispatch, and its attributes in the order they were added. */
  datatype Response = Response(messageCount: nat, attributes: seq<Attribute>) {

    /** `Response::new()`: no messages, no attributes. */
    static function New(): Response
    {
      Response(0, [])
    }

    /** `add_attribute(key, value)`: appends one attribute, nothing else changes. */
    function AddAttribute(key: string, value: string): Response
    {
      this.(attributes := attributes + [Attribute(key, value)])
    }
  }
}
