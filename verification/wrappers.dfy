/** The optional value every JavaScript field can be: present, or null/undefined. */
module Wrappers {

  datatype Option<+T> = None | Some(value: T) {

    /** The value if present, else the given default (`x ?? d`). */
    function GetOr(default: T): T {
      match this
      case Some(v) => v
      case None => default
    }
  }

  /** JavaScript truthiness of an optional string: absent and "" are both falsy. */
  predicate Present(s: Option<string>) {
    s.Some? && s.value != ""
  }
}
