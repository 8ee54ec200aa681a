/**
 * Firestore documents as the data-access layer sees them: a document is a map
 * from top-level field names to values, a collection maps document ids to
 * documents.
 */
module Documents {
  import opened Wrappers

  /** A field value. `Stamp` is a Firestore Timestamp, given as milliseconds since the epoch. */
  datatype Value =
    | Str(str: string)
    | Num(num: int)
    | Bool(flag: bool)
    | Stamp(millis: int)
    | StrList(items: seq<string>)
    | Obj(fields: map<string, Value>)
    | Null

  type Doc = map<string, Value>

  /** A collection: document id to document data. */
  type Collection = map<string, Doc>

  /** `data.key`: the field's value, or `undefined`. */
  function Get(d: Doc, key: string): Option<Value> {
    if key in d then Some(d[key]) else None
  }

  /** JavaScript truthiness of a field read that may be `undefined`. */
  predicate Truthy(v: Option<Value>) {
    match v
    case None => false
    case Some(Str(s)) => s != ""
    case Some(Num(n)) => n != 0
    case Some(Bool(b)) => b
    case Some(Null) => false
    case Some(_) => true
  }
}
