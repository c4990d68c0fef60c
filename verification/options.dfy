/** A nil-able reference. `None` plays the part of Go's `nil`. */
module Options {

  datatype Option<+T> = None | Some(value: T)
}
