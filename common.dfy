/** Wrapper datatypes shared by the whole model: optional values, the outcome of
    a network request, and the content of one persisted storage key. */
module Common {

  datatype Option<+T> = None | Some(value: T) {
    function GetOr(default: T): T {
      match this
      case Some(v) => v
      case None => default
    }
  }

  /** What one HTTP request yields: a response with status ok and a decoded body,
      a response whose status is not ok, or an exception (network failure or a
      body that does not decode). */
  datatype Reply<+T> = Ok(body: T) | NotOk | Threw

  /** What reading one key of the browser's key-value store and decoding it as
      JSON yields: nothing usable (the key is missing or holds the empty string,
      both falsy), text that JSON.parse rejects, or a decoded value. */
  datatype Slot<+T> = Absent | Garbled | Json(value: T)
}
