/** An optional value, as Python's `X | None`, and a truth counted as a number. */
module Options {
  datatype Option<T> = None | Some(value: T)

  /** How much one condition adds to a count. */
  function One(holds: bool): nat {
    if holds then 1 else 0
  }
}
