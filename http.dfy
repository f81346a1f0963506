/** The parts of a Fetch API Response the worker sets: status, body and
    headers. */
module Http {
  import opened JsValues

  /** A response body: none (`null`), plain text, or the JSON.stringify of
      a value. */
  datatype Body = NoBody | TextBody(text: string) | JsonBody(value: Json)

  /** Header names are kept in lower case, as the Headers class compares
      them case-insensitively. */
  datatype Response = Response(status: int, body: Body, headers: map<string, string>)

  const JsonHeaders: map<string, string> := map["content-type" := "application/json"]
}
