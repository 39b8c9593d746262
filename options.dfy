/** Small value wrappers shared by the screens' models. */
module Options {

  /** A value that may be missing: an optional property or an `undefined` argument. */
  datatype Option<T> = None | Some(value: T)

  /**
   * What a read from the device's key-value storage yields once parsed:
   * nothing under the key (`getItem` gives null), text that `JSON.parse`
   * rejects, or a parsed value.
   */
  datatype Stored<T> = Absent | Corrupt | Present(value: T)
}
