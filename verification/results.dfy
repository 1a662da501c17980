/** Failure-carrying values and map lookup shared by every interpreter. */
module Results {

  /** An optional value; `None` also stands for JavaScript's `undefined`. */
  datatype Option<+T> = None | Some(value: T)

  /** The outcome of an operation that may throw: a value or the error it raises. */
  datatype Result<+T, +E> = Ok(value: T) | Err(error: E)

  /** Property access on a plain object: the value under `k`, or `undefined`. */
  function Lookup<K, V>(m: map<K, V>, k: K): Option<V>
  {
    if k in m then Some(m[k]) else None
  }
}
