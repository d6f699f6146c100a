/** Failure-compatible wrappers shared by the whole model: `Option` stands for a
    JavaScript value that may be `undefined`/`null`, `Result` for a call that
    either returns or throws. */
module Common {

  datatype Option<+T> = None | Some(value: T)

  datatype Result<+R, +E> = Success(value: R) | Failure(error: E)

  /** JavaScript truthiness of an optional string: `undefined`, `null` and
      the empty string are all falsy. */
  predicate Truthy(s: Option<string>) {
    s.Some? && s.value != ""
  }

  /** `t` occurs in `s` as one contiguous run. */
  ghost predicate Contains(s: string, t: string) {
    exists i, j :: 0 <= i <= j <= |s| && s[i..j] == t
  }
}
