/** Small shared vocabulary: an optional value and the few string tests the
    routing and form code relies on. */
module Common {

  /** A value that may be absent: a missing header, a null query result, a
      form field that was not sent, a parse that produced NaN. */
  datatype Option<T> = None | Some(value: T)

  /** `s.startsWith(prefix)` */
  predicate StartsWith(s: string, prefix: string)
  {
    |prefix| <= |s| && s[..|prefix|] == prefix
  }
}
