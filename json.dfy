/** JSON values as the state backend handles them. The backend never looks
    inside a stored document beyond its top-level keys, so a value is an
    opaque tree. Only integer numbers are represented. */
module JsonValue {

  datatype Json =
    | Null
    | Bool(b: bool)
    | Int(i: int)
    | Str(s: string)
    | Array(items: seq<Json>)
    | Object(fields: map<string, Json>)

  /** A top-level JSON object: the Python `dict` the backend keeps in memory,
      writes to a state file and reads back from one. */
  type Document = map<string, Json>

  /** `dict.update`: a shallow merge in which every key of `other` takes
      `other`'s value and every other key of `d` keeps its own. */
  function Update(d: Document, other: Document): (r: Document)
    ensures r.Keys == d.Keys + other.Keys
    ensures forall k :: k in other ==> r[k] == other[k]
    ensures forall k :: k in d && k !in other ==> r[k] == d[k]
  {
    d + other
  }

  /** Merging the same keys a second time changes nothing. */
  lemma UpdateAbsorbs(d: Document, other: Document)
    ensures Update(Update(d, other), other) == Update(d, other)
  {
  }

  /** Merging a document into itself, or into the document it was merged
      into, changes nothing. */
  lemma UpdateWithOwnResult(d: Document, other: Document)
    ensures Update(d, d) == d
    ensures Update(d, Update(d, other)) == Update(d, other)
  {
  }

  /** When `other` has every key of `d`, the merge is exactly `other`. */
  lemma UpdateCovering(d: Document, other: Document)
    requires d.Keys <= other.Keys
    ensures Update(d, other) == other
  {
  }
}
