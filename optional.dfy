/** The nullable value the source writes as `T | null` (or `undefined`). */
module Optional {
  datatype Option<+T> = None | Some(value: T)
}
