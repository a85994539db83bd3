/** The parts of Apple's Foundation framework that the Logflare client touches,
    reduced to values. URL resolution, JSON encoding and decoding and the HTTP
    transport are foreign code: the client receives them as functions in an
    `Env` and the model says nothing about how they compute. */
module Foundation {
  import opened Wrappers

  type Bytes = seq<bv8>

  /** A value produced by `JSONSerialization.jsonObject`: null, a boolean,
      a number, a string, an array or a dictionary with string keys. */
  datatype JsonValue =
    | JNull
    | JBool(b: bool)
    | JNumber(n: int)
    | JString(s: string)
    | JArray(elements: seq<JsonValue>)
    | JObject(fields: map<string, JsonValue>)

  /** A Swift dictionary `[String: Any]` whose values are JSON values. */
  type JsonObject = map<string, JsonValue>

  /** A `URL`, known by its absolute string. */
  datatype Url = Url(absoluteString: string)

  /** A `URLResponse`: either an `HTTPURLResponse` with a status code and header
      fields, or some other kind of response that has no status. */
  datatype UrlResponse =
    | Http(statusCode: int, headers: map<string, string>)
    | NotHttp

  /** A `URLRequest` as far as the client sets it up. */
  datatype Request = Request(
    url: Url,
    httpMethod: string,
    headers: map<string, string>,
    httpBody: Option<Bytes>)

  /** A fresh `URLRequest(url:)`: a GET with no header fields and no body. */
  function NewRequest(url: Url): Request
  {
    Request(url, "GET", map[], None)
  }

  /** An error thrown by Foundation, known only by its localized description. */
  datatype ForeignError = ForeignError(description: string)

  /** What `URLSession.data(for:)` gives back: it throws, or returns the body
      bytes together with a response. */
  datatype Transport =
    | Failed(error: ForeignError)
    | Received(data: Bytes, response: UrlResponse)

  /** The foreign operations the client calls, as total functions:
      - resolve: `URL(string: path, relativeTo: base)`, which may fail;
      - serialize: `JSONSerialization.data(withJSONObject:)`, which may throw;
      - perform: one round trip of `URLSession.shared.data(for:)`;
      - parse: `try? JSONSerialization.jsonObject(with:)`, absent when the
        bytes are not JSON. */
  datatype Env = Env(
    resolve: (string, Url) -> Option<Url>,
    serialize: map<string, seq<JsonObject>> -> Result<Bytes, ForeignError>,
    perform: Request -> Transport,
    parse: Bytes -> Option<JsonValue>)
}
