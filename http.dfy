/** Requests and responses as the browser's `fetch` sees them. Paths are relative to
    the single configured API origin (`.../api`). */
module Http {
  import opened Wrappers
  import opened JsonValue

  datatype Method = GET | POST | PUT | DELETE

  /** `fetch(base + path, {method: verb, body: JSON.stringify(body)})`. */
  datatype Request = Request(verb: Method, path: string, body: Option<Json>)

  /** What `response.json()` settles to: the parsed value, or the message of the
      parse error it rejects with. */
  datatype JsonParse = Parsed(value: Json) | ParseError(message: string)

  /** A response: its status, what `response.text()` reads, and what
      `response.json()` reads. */
  datatype HttpResponse = HttpResponse(status: int, text: string, json: JsonParse)

  /** `response.ok`. */
  predicate Ok(r: HttpResponse)
  {
    200 <= r.status <= 299
  }
}
