/** Option and Result types shared by every module of the opkg model.
    `Result` carries the Python exception a code path raises, so that the
    error paths of the source are modelled rather than excluded. */
module Wrappers {

  datatype Option<+T> = None | Some(value: T) {
    function GetOr(default: T): T {
      match this
      case Some(v) => v
      case None => default
    }
  }

  /** The exceptions that the modelled code can raise. */
  datatype Failure =
    | IndexError                         // a subscript past the end of a list
    | ValueError                         // unpacking a list of the wrong length
    | KeyError                           // a dictionary lookup of a missing key
    | CommandExecutionError(message: string, errors: seq<string>)
    | SaltInvocationError(message: string)
    | TypeError                          // a call with fewer arguments than the callee takes

  datatype Result<+T> = Ok(value: T) | Err(error: Failure)

  /** `m.get(k, d)` of Python. */
  function Get<K, V>(m: map<K, V>, k: K, d: V): (v: V)
    ensures k in m ==> v == m[k]
    ensures k !in m ==> v == d
  {
    if k in m then m[k] else d
  }

  /** `m.get(k)` of Python, with None for a missing key. */
  function Lookup<K, V>(m: map<K, V>, k: K): (v: Option<V>)
    ensures v.Some? <==> k in m
    ensures v.Some? ==> v.value == m[k]
  {
    if k in m then Some(m[k]) else None
  }
}
