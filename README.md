# Logflare client, modelled in Dafny

A model of the Swift Logflare client (`Sources/Logflare/Logflare.swift`), a
small library that posts batches of log events to the Logflare ingestion API.
The model covers these parts of the client:

- construction: both tokens must be non-empty, and the base URL defaults to `https://api.logflare.app`;
- the ingestion request: the path `/api/logs?api_key=<key>&source=<token>`, the payload `["batch": batch]`, and a POST with two JSON header fields;
- the guard chain that reads the server's reply;
- the `catch` block, which normalises errors, calls the optional `onError` hook and rethrows.

Files:

- `Wrappers.dfy`: the `Option` and `Result` types.
- `Foundation.dfy`: the Foundation pieces the client touches, as values. This covers JSON values, `URL`, `URLResponse` and `URLRequest`. It also holds `Env`, a bundle of the four foreign operations, passed in as functions: `URL(string:relativeTo:)`, `JSONSerialization.data`, `URLSession.data(for:)` and `try? JSONSerialization.jsonObject`.
- `Logflare.dfy`: the client. The pure functions `Configure`, `Classify`, `Normalise` and `Send` state the behaviour. The class `Logflare` has four immutable fields and two ghost logs: the requests it has performed and the calls it has made to `onError`. Its methods `Init`, `SendEvents` and `SendEvent` are proved equal to those functions.

The `onError` closure is an opaque handle (`ErrorHook`). Each call of the hook adds one `Notification(hook, payload, error)` to the client's log. When no hook is configured, nothing is recorded, as with `onError?(…)`.

The `onError` hook is documented as handling "any errors returned by server" (`Sources/Logflare/Logflare.swift:12`). The code calls it only from the `catch` of the request/response block (lines 105-121). A URL-composition failure (lines 65-67) and a serialization failure (lines 74-79) are thrown before that block. For those two failures no request is made and the hook is not called (`EarlyFailuresAreSilent`).

## Model

| member | source | states |
|---|---|---|
| Logflare.Configure | Sources/Logflare/Logflare.swift:40-53 | Construction fails iff the source token or the API key is empty. With both empty, the source-token error is raised. On success the tokens and `onError` are kept unchanged, and `apiURL` is the supplied URL or `https://api.logflare.app`. |
| Logflare.Logflare.Init | Sources/Logflare/Logflare.swift:40-53 | The initializer fails with exactly `Configure`'s error or yields a fresh client. That client's fields are `Configure`'s result, both its tokens are non-empty, and its logs are empty. |
| Logflare.Logflare.constructor | Sources/Logflare/Logflare.swift:49-52 | Stores the four configured fields as given. |
| Logflare.MakePayload | Sources/Logflare/Logflare.swift:63 | The payload has the single key `batch`, whose value is the batch unchanged (an empty batch included). |
| Logflare.BuildPath | Sources/Logflare/Logflare.swift:62 | The path is `/api/logs?api_key=`, then the API key verbatim, then `&source=`, then the source token verbatim. Neither token is escaped. |
| Logflare.PathRoundTrip | Sources/Logflare/Logflare.swift:62 | A query reader splits at every `&`, stops at `#` and expects exactly the `api_key` and `source` fields. It gets back exactly (apiKey, sourceToken) from the built path iff neither token contains `&` or `#`. Unescaped tokens are read back only when they are safe. |
| Logflare.ReadQueryValuesAreSafe | Sources/Logflare/Logflare.swift:62 | Whatever that query reader gets back contains no `&` and no `#`. This is the "only if" half of `PathRoundTrip`. |
| Logflare.Classify | Sources/Logflare/Logflare.swift:85-103 | Success iff the response is HTTP, the status is in [200,300) and the parsed body is a dictionary with a string `message`. The result is that string. A non-HTTP response gives "Invalid response" whatever the body. A non-2xx status gives the "not ok" error for the URL whatever the body. Otherwise the error is "Invalid JSON response". Every error carries the response and the parsed body. |
| Logflare.NotOkMentionsUrl | Sources/Logflare/Logflare.swift:90-95 | The "not ok" error message contains the absolute string of the request URL. |
| Logflare.Normalise | Sources/Logflare/Logflare.swift:105-113 | A `LogflareError` passes through unchanged. Any other error becomes "Unknown error: …" with `underlyingError` set to it, and no response or data. |
| Logflare.Send | Sources/Logflare/Logflare.swift:61-123 | A request is performed iff the URL composes and the payload serializes, and then exactly one. That request is a POST to the resolved URL, with the JSON `Content-Type` and `Accept` fields, and its body is the serialized payload. A call that performs no request fails and calls no hook. A successful call calls no hook. A failure after the request calls the hook exactly once, if one is configured, with the payload `["batch": batch]` and the very error returned. |
| Logflare.EarlyFailuresAreSilent | Sources/Logflare/Logflare.swift:65-79 | A URL-composition failure gives "Invalid URL for Logflare API". A serialization failure gives "JSON serialization failed: …" wrapping the cause. Both happen with no request performed and no hook called. |
| Logflare.SendSucceedsIff | Sources/Logflare/Logflare.swift:65-103 | A send succeeds iff four things hold: the URL composes, the payload serializes, the round trip returns a 2xx HTTP response, and the parsed body has a string `message`. The returned message is that string. |
| Logflare.TransportErrorsAreClassified | Sources/Logflare/Logflare.swift:81-121 | Once the request is performed, the error thrown is one of two things. It is the transport's error wrapped as "Unknown error", or it is the guard chain's error unchanged. |
| Logflare.Logflare.SendEvents | Sources/Logflare/Logflare.swift:61-123 | Builds the request step by step and returns `Send`'s result. It appends exactly `Send`'s performed request and hook calls to the client's ghost logs. |
| Logflare.Logflare.SendEvent | Sources/Logflare/Logflare.swift:55-58 | Has exactly the outcome and the effect on the logs of sending the one-event batch `[event]`. |

## Left out

- Network I/O and async suspension (`URLSession.shared.data(for:)`) are left out. Each round trip is the `perform` function of `Env`, so the model does not cover cancellation or concurrent calls.
- The workings of `URL(string:relativeTo:)` are left out. That is reference resolution per section 5.2 of RFC 3986, and the model takes it as the possibly failing `resolve` function.
- JSON encoding and decoding are left out. They are the opaque `serialize` and `parse` functions. JSON numbers are integers in the model, since no check looks at them.
- Foundation error descriptions are left out: `localizedDescription` is an opaque string in `ForeignError`.
- PathRoundTrip: the query reader does no percent-decoding. A token holding `%` or `+` may be read differently by a server that decodes, and the lemma does not cover that.
- The `#if DEBUG` diagnostic `print` is left out, because it is diagnostic output only.
- `Sendable` annotations and the constant `name` field of `LogflareError` are left out, because they carry no behaviour.
- The behaviour of the `onError` closure itself is not modelled. Only each call and its arguments are recorded.
