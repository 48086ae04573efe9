/**
 * What the widget scripts get back from the browser: the result of a `fetch`
 * followed by `response.json()`, and the result of a call that may throw.
 */
module Browser {
  import opened Values

  /**
   * A `fetch(...)` whose reply went through `response.json()`: the parsed value,
   * whatever the HTTP status was, or the message of the error thrown because the
   * request failed or the body was not JSON.
   */
  datatype HttpReply = Answered(body: Json) | NoAnswer(message: string)

  /** The value of a JavaScript expression, or the fact that it threw a TypeError. */
  datatype Js<T> = Returned(value: T) | Thrown
}
