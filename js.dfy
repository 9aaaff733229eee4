/** The two JavaScript value notions the sketchpad's handlers branch on. */
module Js {

  /** A value that may be `null` (`T | null`). */
  datatype Option<+T> = None | Some(value: T)

  /** JavaScript truthiness of a `string | null`: `null` and `""` are falsy,
      every other string is truthy. `if (currentEmojiString)` and
      `if (customEmoji)` test exactly this. */
  predicate Truthy(s: Option<string>)
  {
    s.Some? && s.value != ""
  }
}
