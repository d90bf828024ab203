/** Values shared by every module of the model. */
module Common {

  /** An optional value; `None` plays the role of Go's `nil`. */
  datatype Option<+T> = None | Some(value: T)

  /** A Go `error` value, identified by the text its Error method returns.
      The errors of this program are built with fmt.Errorf and errors.New and
      never wrap one another, so their text is all a caller can observe. */
  type Error = string
}
