/** JSON values. Object keys are unordered; integers and other numbers are told apart, as Python's
    decoder does. */
module Json {
  import opened Common

  datatype Json =
    | Null
    | Bool(b: bool)
    | Int(i: int)
    | Float(r: real)
    | Str(s: string)
    | Arr(items: seq<Json>)
    | Obj(fields: map<string, Json>)

  type Record = map<string, Json>

  /** `record[name]`, with None for an absent field. */
  function Field(record: Record, name: string): Option<Json> {
    if name in record then Some(record[name]) else None
  }

  /** The object's fields; none for a value that is not an object. */
  function AsRecord(value: Option<Json>): Record {
    match value
    case Some(Obj(fields)) => fields
    case _ => map[]
  }

  predicate IsObject(value: Option<Json>) {
    value.Some? && value.value.Obj?
  }

  /** Writing a field with the value it has changes nothing. */
  lemma UpdateSame(r: Record, name: string, value: Json)
    requires Field(r, name) == Some(value)
    ensures r[name := value] == r
  {
  }
}
