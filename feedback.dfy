/**
 * The text shown for a failed request: the error's message when it is a
 * non-empty string, otherwise a fixed fallback (JavaScript's `message || fallback`).
 */
module Feedback {
  import opened Wrappers

  function ErrorText(message: Option<string>, fallback: string): (text: string)
    ensures message.Some? && message.value != "" ==> text == message.value
    ensures message.None? || message.value == "" ==> text == fallback
    ensures fallback != "" ==> text != ""
  {
    match message
    case Some(m) => if m != "" then m else fallback
    case None => fallback
  }
}
