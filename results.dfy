/** Small value wrappers shared by the model. */
module Results {

  /** An optional value: JavaScript's `undefined` is `None`. */
  datatype Option<+T> = None | Some(value: T) {
    function GetOr(default: T): T {
      match this
      case Some(v) => v
      case None => default
    }
  }

  /**
   * What one JSON-RPC call to a backend came back with:
   * `Ok(v)` a truthy `result`, `Empty` a falsy one (absent, null or empty),
   * `Fail(message)` a call that threw, with the error's message.
   */
  datatype Reply<+T> = Ok(value: T) | Empty | Fail(message: string)
}
