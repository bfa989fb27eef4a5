/** A JSON value, and the few queries the orchestrator makes of one. */
module JsonValues {
  datatype Json =
    | Null
    | Bool(b: bool)
    | Number(n: real)
    | String(s: string)
    | Array(items: seq<Json>)
    | Object(fields: map<string, Json>)
  {
    /** Whether it is an object with that key. */
    predicate Has(key: string) { Object? && key in fields }

    function At(key: string): Json
      requires Has(key)
    {
      fields[key]
    }

    /** Null, an array without items or an object without keys. */
    predicate Empty()
    {
      Null? || (Array? && items == []) || (Object? && fields == map[])
    }
  }
}
