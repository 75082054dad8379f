/** What every component shares. */
module Options {
  datatype Option<+T> = None | Some(value: T)

  datatype Result<+T, +E> = Ok(value: T) | Err(error: E)

  /** One field. (The cell also spares the verifier comparing the sizes of whole tables.) */
  datatype Cell<T> = Cell(v: T)

  /** The sequence kept under a key, which starts out empty. */
  function At<K(==), T>(m: map<K, seq<T>>, k: K): seq<T> {
    if k in m then m[k] else []
  }
}
