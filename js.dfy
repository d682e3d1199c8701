/**
 * The few JavaScript notions the bot's control flow depends on: values that may
 * be absent (`undefined` or `null`), the truthiness of a string, and the way a
 * block of code completes (normally, or by throwing).
 */
module JsModel {

  /** A value that may be absent: `None` stands for `undefined` or `null`. */
  datatype Option<+T> = None | Some(value: T)

  /** The errors the orchestration can see thrown at it. */
  datatype JsError =
    | GenerationError   // the generation service failed, or its text was not JSON
    | TypeError         // reading `.length` of an absent `options` field

  /** How a piece of code finishes: an `async` function's promise resolves or rejects. */
  datatype Completion = Normal | Threw(error: JsError)

  /** JavaScript truthiness of a possibly absent string: present and non-empty. */
  predicate Truthy(s: Option<string>)
  {
    s.Some? && s.value != ""
  }
}
