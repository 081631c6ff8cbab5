/** Values shared by every part of the model. */
module Common {
  datatype Option<+T> = None | Some(value: T)

  /** A document as JSON.parse returns it. Numbers are integers; the members of an object are unordered. */
  datatype Json =
    | Null
    | Bool(b: bool)
    | Num(n: int)
    | Str(s: string)
    | Arr(items: seq<Json>)
    | Obj(fields: map<string, Json>)

  function Min(a: int, b: int): int {
    if a <= b then a else b
  }

  function Max(a: int, b: int): int {
    if a >= b then a else b
  }

  lemma MulMonotone(x: int, y: int, p: nat)
    requires x <= y
    ensures x * p <= y * p
  {
  }

  /** Field access on an object whose member may be absent. */
  function Field(fields: map<string, Json>, name: string): Option<Json> {
    if name in fields then Some(fields[name]) else None
  }
}
