/** Optional values and the outcome of a call to the notes server. */
module Wrappers {

  datatype Option<+T> = None | Some(value: T) {
    /** The value, or `default` when there is none (JavaScript's `x || default` on a missing field). */
    function GetOr(default: T): T {
      match this
      case Some(v) => v
      case None => default
    }
  }

  /**
   * What a server call resolves to: a value, or a failure carrying the
   * `error` field of the response body when the server sent one.
   */
  datatype Reply<+T> = Ok(value: T) | Fail(message: Option<string>)

  /**
   * The text a caller shows for a failed reply: the server's message, or
   * `fallback` when there is none or it is empty (`message || fallback`).
   */
  function ErrorText<T>(reply: Reply<T>, fallback: string): (text: string)
    requires reply.Fail?
    ensures reply.message.Some? && reply.message.value != "" ==> text == reply.message.value
    ensures reply.message.None? || reply.message.value == "" ==> text == fallback
    ensures text != "" || fallback == ""
  {
    if reply.message.Some? && reply.message.value != "" then reply.message.value else fallback
  }
}
