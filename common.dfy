/** Value types shared by every part of the model. */
module Common {

  /** An opaque identity; the system uses random UUIDs. */
  type Uuid = nat

  /** A point in time, ordered like the system's LocalDateTime values. */
  type Instant = int

  /** A value that may be absent (a Java null). */
  datatype Option<+T> = None | Some(value: T) {
    /** The value, or `d` when absent. */
    function GetOr(d: T): T {
      match this
      case Some(v) => v
      case None => d
    }
  }

  /** The outcome of an operation that either yields a value or raises a typed error. */
  datatype Result<+T, +E> = Ok(value: T) | Err(error: E)

  /** `Map.getOrDefault(k, d)` for a map that may lack the key. */
  function GetOrDefault<K, V>(m: map<K, V>, k: K, d: V): (v: V)
    ensures k in m ==> v == m[k]
    ensures k !in m ==> v == d
  {
    if k in m then m[k] else d
  }
}
