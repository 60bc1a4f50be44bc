/**
 * The JSON documents that travel in envelope payloads, and the way Go's
 * encoding/json fills one struct field from a decoded object: a missing key
 * or a null leaves the zero value, a value of the wrong JSON type is an
 * error, and keys the struct does not name are ignored.
 * Numbers are integers: the shopping prices (float64 in the system) are
 * modelled in minor units.
 */
module Json {
  import opened Wrappers

  datatype JVal =
    | JNull
    | JStr(s: string)
    | JInt(i: int)
    | JObj(fields: map<string, JVal>)
    | JMalformed   // bytes that are not a JSON document at all

  type Obj = map<string, JVal>

  /** A string field: None when the key holds a value of another JSON type. */
  function StrField(o: Obj, key: string): Option<string> {
    if key !in o then Some("")
    else match o[key]
      case JNull => Some("")
      case JStr(s) => Some(s)
      case _ => None
  }

  /** An integer field, with the same zero-value and mismatch rules. */
  function IntField(o: Obj, key: string): Option<int> {
    if key !in o then Some(0)
    else match o[key]
      case JNull => Some(0)
      case JInt(i) => Some(i)
      case _ => None
  }

  /** The top-level object a struct is decoded from: `null` decodes to the zero struct. */
  function TopObject(v: JVal): Option<Obj> {
    match v
    case JNull => Some(map[])
    case JObj(o) => Some(o)
    case _ => None
  }

  lemma FieldsReadBack(o: Obj, key: string, s: string, i: int)
    ensures StrField(o[key := JStr(s)], key) == Some(s)
    ensures IntField(o[key := JInt(i)], key) == Some(i)
    ensures key !in o ==> StrField(o, key) == Some("") && IntField(o, key) == Some(0)
  {
  }
}
