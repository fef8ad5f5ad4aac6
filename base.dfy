/** Small value types shared by the other modules. */
module Base {

  /** A value that may be absent; stands for JavaScript's `null` / `undefined`. */
  datatype Option<+T> = None | Some(value: T)

  /** The host platform as `process.platform` distinguishes it: macOS or anything else. */
  datatype Platform = Darwin | Other
}
