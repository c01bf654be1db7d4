/** The values held by a submitted form or a tool record: strings from the form decoder, lists of
    strings for the multi-value fields, and booleans for the checkbox fields once coerced. */
module Records {
  import opened Wrappers
  import Strings

  datatype FieldValue = Text(s: string) | List(items: seq<string>) | Flag(b: bool)

  /** A plain JavaScript object used as a record: field name to value. */
  type Record = map<string, FieldValue>

  /** `record[key]`, `undefined` when the key is absent. */
  function Get(record: Record, key: string): Option<FieldValue>
  {
    if key in record then Some(record[key]) else None
  }

  /** JavaScript truthiness: `undefined`, `""` and `false` are falsy; every array, even an empty
      one, is truthy. */
  predicate Truthy(v: Option<FieldValue>)
  {
    match v
    case None => false
    case Some(Text(s)) => s != ""
    case Some(List(_)) => true
    case Some(Flag(b)) => b
  }

  /** `String(v)`, as a template literal or a form control renders a value. */
  function Display(v: FieldValue): string
  {
    match v
    case Text(s) => s
    case List(items) => Strings.Join(items, ",")
    case Flag(b) => if b then "true" else "false"
  }

  /** A record as the form decoder produces it: only strings and lists of strings. */
  predicate FormShaped(record: Record)
  {
    forall k :: k in record ==> !record[k].Flag?
  }
}
