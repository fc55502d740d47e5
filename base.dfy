/** Value types shared by every part of the model. */
module Base {

  /** Go's "nil or a value". */
  datatype Option<+T> = None | Some(value: T)

  /** A value or the error a Go function returns beside it. */
  datatype Result<+T> = Ok(value: T) | Err(error: string)

  /** A JSON value as encoding/json decodes it into `any` (numbers kept integral). */
  datatype Json =
    | JNull
    | JBool(b: bool)
    | JNumber(n: int)
    | JString(s: string)
    | JArray(items: seq<Json>)
    | JObject(fields: map<string, Json>)

  /** Tool-call arguments handed to a provider: a `map[string]any`, where None is the nil map. */
  type Args = Option<map<string, Json>>

  /** The last element of a concatenation with a non-empty right part is that
      part's last element, and what precedes it is the left part followed by the rest. */
  lemma InitOfConcat<T>(a: seq<T>, b: seq<T>)
    requires b != []
    ensures (a + b)[..|a + b| - 1] == a + b[..|b| - 1]
    ensures (a + b)[|a + b| - 1] == b[|b| - 1]
  {
  }
}
