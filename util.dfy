/** Helpers for optional string fields: a Go `*string` is an `Option<string>`,
    nil being `None`. */
module Util {
  import opened Wrappers

  /** A pointer to `s`: never nil, and it points at `s`. */
  function String(s: string): (p: Option<string>)
    ensures p.Some? && p.value == s
  {
    Some(s)
  }

  /** The pointee, or the empty string for nil. */
  function StringValue(p: Option<string>): (s: string)
    ensures p.None? ==> s == ""
    ensures p.Some? ==> s == p.value
  {
    if p.Some? then p.value else ""
  }

  /** Unwrapping a wrapped string gives the string back. */
  lemma StringValueOfString(s: string)
    ensures StringValue(String(s)) == s
  {
  }
}
