/**
 * JSON values at the level the provider's configuration handling needs
 * them. Text is abstracted: a string either is the serialisation of a
 * JSON value or is not JSON at all, so parsing is a partial function
 * and `dump` is its right inverse by construction.
 */
module Json {
  import opened Envelope

  datatype Json =
    | JNull
    | JBool(b: bool)
    | JNum(n: int)
    | JStr(str: string)
    | JArr(items: seq<Json>)
    | JObj(fields: map<string, Json>)

  /**
   * A JSON-formatted string: the dump of some value, or malformed text
   * together with the diagnostic the parser reports for it.
   */
  datatype Text = Doc(doc: Json) | Malformed(raw: string, diagnostic: string)

  /** `json::object()` */
  const EmptyObject: Json := JObj(map[])

  /** `json::parse`: None stands for a thrown parse_error. */
  function Parse(t: Text): (r: Option<Json>)
    ensures r.None? <==> t.Malformed?
  {
    match t
    case Doc(j) => Some(j)
    case Malformed(_, _) => None
  }

  /** `json.dump()` */
  function Dump(j: Json): (t: Text)
    ensures Parse(t) == Some(j)
  {
    Doc(j)
  }

  /** The literal "{}". */
  const EmptyObjectText: Text := Dump(EmptyObject)
}
