/** An optional value: an absent header, a missing body, an unset `sessionId`. */
module Options {
  datatype Option<+T> = None | Some(value: T)
}
