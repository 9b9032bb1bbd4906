/**
 * What the four API handlers receive and answer: the request body, the
 * replies of the hosted services they call (passed in, since the calls are
 * not modelled), the calls they make, and the response as a status and a
 * JSON body.
 */
module Http {
  import opened Outcomes
  import opened JsonValues

  /** `NextResponse.json(body, { status })`; the status defaults to 200. */
  datatype Response = Response(status: int, body: Json)

  /** `{ error: message }`. */
  function ErrorJson(message: string): Json {
    JObj([("error", JStr(message))])
  }

  /**
   * The outer `catch` of the soil, disease and weather handlers:
   * `{ error: error?.toString() || "Unknown error" }` with status 500.
   */
  function Caught(e: JsError): Response {
    Response(500, ErrorJson(if e.ToString() == "" then "Unknown error" else e.ToString()))
  }

  /** The outgoing calls a handler makes, in order. */
  datatype Call =
    | Geocode(name: string)                      // Open-Meteo geocoding, by place name
    | Forecast(latitude: string, longitude: string)  // Open-Meteo 5-day forecast
    | Generate(prompt: string)                   // Gemini generateContent

  /**
   * The outcome of a Gemini `generateContent` call over `fetch`:
   * the call or the reading of its JSON body threw; a non-OK reply with its
   * body text; or an OK reply with the string found at
   * `candidates[0].content.parts[0].text`, if any. A TypeError thrown while
   * reading the reply (a body of `null`, so that `data.candidates` throws) is
   * an `Unreachable` reply too: the handlers answer both through their `catch`.
   */
  datatype Reply =
    | Unreachable(error: JsError)
    | Rejected(bodyText: string)
    | Answered(text: Option<string>)

  /** `data.candidates?.[0]?.content?.parts?.[0]?.text || default`. */
  function CandidateText(text: Option<string>, default: string): string {
    match text
    case Some(t) => if t == "" then default else t
    case None => default
  }

  /** `await req.json()`: the body's value, or the error reading it threw. */
  datatype RequestBody = Unreadable(error: JsError) | Parsed(value: Json)

  /**
   * The TypeError V8 throws for `const { key, ... } = source` when `source`
   * evaluates to `undefined` or `null`.
   */
  function DestructureError(key: string, source: string, v: Option<Json>): JsError {
    JsError("TypeError", "Cannot destructure property '" + key + "' of '" + source + "' as it is "
                         + (if v.None? then "undefined" else "null") + ".")
  }

  /** The same for `const { key, ... } = await req.json()` and a body of `null`. */
  function DestructureNullError(key: string): JsError {
    DestructureError(key, "(intermediate value)", Some(JNull))
  }

  const KeyNotSet := "Gemini API key not set."

  /** `!process.env.GEMINI_API_KEY`: unset or empty. */
  predicate KeyMissing(apiKey: Option<string>) {
    apiKey.None? || apiKey.value == ""
  }
}
