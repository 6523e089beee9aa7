/** The first test both webhook normalisers apply to a decoded payload. */
module WebhookPayload {
  import opened PyJson

  const NotForPage: PyError := ValueError("Received webhook is not for a page")

  /** `'object' not in payload or payload['object'] != 'page'` on a decoded
      JSON value, raising `NotForPage` when the test holds; the dict the
      normaliser goes on with otherwise. On a list or a string the `in` test
      looks for an element or a substring and the subscript then fails; on
      any other value the `in` test itself fails. */
  function PageCheck(payload: Json): (r: Py<Dict>)
    ensures r.Ok? <==> payload.JObj? && "object" in payload.fields && payload.fields["object"] == JStr("page")
    ensures r.Ok? ==> r.value == payload.fields
    ensures payload.JObj? && r.Raise? ==> r.error == NotForPage
  {
    match payload
    case JObj(m) =>
      if "object" in m && m["object"] == JStr("page") then Ok(m) else Raise(NotForPage)
    case JArr(a) =>
      if JStr("object") in a then Raise(TypeError("list indices must be integers or slices, not str"))
      else Raise(NotForPage)
    case JStr(s) =>
      if ContainsStr(s, "object") then Raise(TypeError("string indices must be integers, not 'str'"))
      else Raise(NotForPage)
    case _ => Raise(TypeError("argument of type '" + TypeName(payload) + "' is not iterable"))
  }

  /** The entries of a page payload: `payload.get('entry', [])` iterated. */
  function PageEntries(p: Dict): Py<seq<Json>> {
    Elements(Get(p, "entry", JArr([])))
  }
}
