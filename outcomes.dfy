/** Results of calls into external services, whose behaviour is not modelled:
    each call either succeeds with a value or raises an error with a message. */
module Outcomes {

  datatype Option<+T> = None | Some(value: T)

  /** The outcome of one external call: `Ok(value)` or an exception whose `str()` is `message`. */
  datatype Outcome<+T> = Ok(value: T) | Fail(message: string)

  /** Python `d.get(key)` on a dictionary (and `os.environ.get`, `os.getenv`). */
  function Lookup<K, V>(m: map<K, V>, key: K): Option<V>
  {
    if key in m then Some(m[key]) else None
  }

  /** Python truthiness of an optional string: present and non-empty. */
  predicate Truthy(v: Option<string>) {
    v.Some? && v.value != ""
  }
}
