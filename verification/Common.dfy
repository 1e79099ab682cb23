/** Types shared by the modules. */
module Common {

  datatype Option<+T> = None | Some(value: T)

  /** A remote call succeeds, or its error hides whether it took effect. */
  datatype Fault = Fine | Lost(applied: bool) {
    predicate Applied() { this == Fine || applied }
  }
}
