/**
 * The parsed request body (`req.body`) as a JSON value, JavaScript truthiness
 * on it, and the correlation id the POST handler echoes in a dispatch failure.
 */
module JsonValues {
  import opened Options

  datatype Json =
    | JNull
    | JBool(b: bool)
    | JNumber(n: real)
    | JString(s: string)
    | JArray(elems: seq<Json>)
    | JObject(fields: map<string, Json>)

  /** JavaScript truthiness of a parsed JSON value: `null`, `false`, `0` and `""` are falsy. */
  predicate Truthy(j: Json) {
    match j
    case JNull => false
    case JBool(b) => b
    case JNumber(n) => n != 0.0
    case JString(s) => s != ""
    case JArray(_) => true
    case JObject(_) => true
  }

  /**
   * `req.body?.id`: `None` (JavaScript `undefined`) when there is no body, when
   * the body is not an object, or when it has no `id` member.
   */
  function BodyId(body: Option<Json>): Option<Json> {
    if body.Some? && body.value.JObject? && "id" in body.value.fields
    then Some(body.value.fields["id"])
    else None
  }

  /**
   * `req.body?.id || null`: a truthy request id is echoed unchanged; every
   * falsy one (`0`, `""`, `false`, `null`, a missing id or body) becomes `null`.
   */
  function CorrelationId(body: Option<Json>): (id: Json)
    ensures id == JNull || Truthy(id)
    ensures Truthy(id) <==> BodyId(body).Some? && Truthy(BodyId(body).value)
    ensures id != JNull ==> BodyId(body) == Some(id)
  {
    match BodyId(body)
    case Some(v) => if Truthy(v) then v else JNull
    case None => JNull
  }
}
