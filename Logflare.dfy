/** The Logflare client: validated configuration, construction of the ingestion
    request, interpretation of the server's reply and the error hook. */
module Logflare {
  import opened Wrappers
  import opened Foundation

  /** One log event, a dictionary of JSON values. */
  type Event = JsonObject

  /** The request payload `["batch": batch]`. */
  type Payload = map<string, seq<Event>>

  /** The caller's `onError` closure, known only by identity. */
  datatype ErrorHook = ErrorHook(id: nat)

  /** `ClientOptions`: what the caller supplies at construction. */
  datatype ClientOptions = ClientOptions(
    sourceToken: string,
    apiKey: string,
    apiURL: Option<Url>,
    onError: Option<ErrorHook>)

  /** The four fields a constructed client keeps. */
  datatype Config = Config(
    sourceToken: string,
    apiKey: string,
    apiURL: Url,
    onError: Option<ErrorHook>)

  datatype LogflareResponse = LogflareResponse(message: string)

  /** `LogflareError`: a message, and optionally the Foundation error it wraps,
      the response received and the parsed response body. */
  datatype LogflareError = LogflareError(
    errorDescription: string,
    underlyingError: Option<ForeignError>,
    response: Option<UrlResponse>,
    data: Option<JsonValue>)

  /** What the request/response block can throw: an error the client raised
      itself, or one that came out of Foundation. */
  datatype Thrown = Flare(error: LogflareError) | Foreign(cause: ForeignError)

  /** One call of the `onError` hook. */
  datatype Notification = Notification(hook: ErrorHook, payload: Payload, error: LogflareError)

  /** Everything one `sendEvents` call does: its result, the requests it put on
      the wire and the hook calls it made. */
  datatype SendOutcome = SendOutcome(
    result: Result<LogflareResponse, LogflareError>,
    performed: seq<Request>,
    notified: seq<Notification>)

  const DefaultApiUrl := Url("https://api.logflare.app")

  const SourceTokenMissing := "Logflare API source token is NOT configured!"
  const ApiKeyMissing := "Logflare API logging transport api key is NOT configured!"
  const InvalidUrl := "Invalid URL for Logflare API"
  const InvalidResponse := "Invalid response from Logflare API"
  const InvalidJson := "Invalid JSON response from Logflare API"

  const PathPrefix := "/api/logs?api_key="
  const SourceParam := "&source="

  const JsonHeaders: map<string, string> :=
    map["Content-Type" := "application/json", "Accept" := "application/json, text/plain, */*"]

  /** `LogflareError(message)` with every optional part left out. */
  function Plain(message: string): LogflareError
  {
    LogflareError(message, None, None, None)
  }

  function SerializationFailed(cause: ForeignError): LogflareError
  {
    LogflareError("JSON serialization failed: " + cause.description, Some(cause), None, None)
  }

  function NotOkMessage(url: Url): string
  {
    "Network response was not ok for \"" + url.absoluteString + "\""
  }

  predicate IsOk(statusCode: int)
  {
    200 <= statusCode < 300
  }

  // ---------------------------------------------------------------------------
  // Construction

  /** The validation and field resolution of `Logflare.init`. */
  function Configure(options: ClientOptions): (r: Result<Config, LogflareError>)
    ensures r.Failure? <==> options.sourceToken == [] || options.apiKey == []
    ensures options.sourceToken == [] ==> r == Failure(Plain(SourceTokenMissing))
    ensures options.sourceToken != [] && options.apiKey == [] ==> r == Failure(Plain(ApiKeyMissing))
    ensures r.Success? ==>
      && r.value.sourceToken == options.sourceToken
      && r.value.apiKey == options.apiKey
      && r.value.onError == options.onError
      && r.value.apiURL == (if options.apiURL.Some? then options.apiURL.value else DefaultApiUrl)
  {
    if options.sourceToken == [] then Failure(Plain(SourceTokenMissing))
    else if options.apiKey == [] then Failure(Plain(ApiKeyMissing))
    else
      var url := match options.apiURL
        case Some(u) => u
        case None => DefaultApiUrl;
      Success(Config(options.sourceToken, options.apiKey, url, options.onError))
  }

  // ---------------------------------------------------------------------------
  // Request construction

  /** The path and query of the ingestion endpoint. The two tokens are
      inserted as they are, with no escaping. */
  function BuildPath(apiKey: string, sourceToken: string): (p: string)
    ensures |p| == |PathPrefix| + |apiKey| + |SourceParam| + |sourceToken|
    ensures p[..|PathPrefix|] == PathPrefix
    ensures p[|PathPrefix|..|PathPrefix| + |apiKey|] == apiKey
    ensures p[|PathPrefix| + |apiKey|..|p| - |sourceToken|] == SourceParam
    ensures p[|p| - |sourceToken|..] == sourceToken
  {
    "/api/logs?api_key=" + apiKey + "&source=" + sourceToken
  }

  /** The payload handed to the serializer and to the error hook. */
  function MakePayload(batch: seq<Event>): (p: Payload)
    ensures p.Keys == {"batch"} && p["batch"] == batch
  {
    map["batch" := batch]
  }

  /** The first position of `c` in `s`, if any. */
  function IndexOf(s: string, c: char): (r: Option<nat>)
    ensures r.None? ==> c !in s
    ensures r.Some? ==> r.value < |s| && s[r.value] == c && c !in s[..r.value]
  {
    if s == [] then None
    else if s[0] == c then Some(0)
    else match IndexOf(s[1..], c)
      case None => None
      case Some(i) =>
        assert s[..i + 1] == [s[0]] + s[1..][..i];
        Some(i + 1)
  }

  /** `s` up to the first `c`, or all of `s` when `c` does not occur. */
  function TakeUntil(s: string, c: char): (r: string)
    ensures c !in r && r <= s
    ensures c !in s ==> r == s
  {
    match IndexOf(s, c)
    case None => s
    case Some(i) => s[..i]
  }

  /** `s` cut into the fields between the occurrences of `sep`. */
  function Split(s: string, sep: char): (fields: seq<string>)
    ensures |fields| >= 1
    ensures forall f <- fields :: sep !in f && forall x <- f :: x in s
    decreases |s|
  {
    match IndexOf(s, sep)
    case None => [s]
    case Some(i) =>
      var rest := Split(s[i + 1..], sep);
      assert forall f <- rest, x <- f :: x in s by {
        forall f <- rest, x <- f ensures x in s {
          var k :| 0 <= k < |s[i + 1..]| && s[i + 1..][k] == x;
          assert s[i + 1 + k] == x;
        }
      }
      [s[..i]] + rest
  }

  /** `f` is the query field `name` followed by its value. */
  predicate IsField(f: string, name: string)
  {
    |name| <= |f| && f[..|name|] == name
  }

  const EndpointPath := "/api/logs?"
  const KeyName := "api_key="
  const SourceName := "source="

  /** A reader of an ingestion path that does no percent-decoding: the query
      ends at the first `#`, is split into fields at every `&`, and must be
      exactly an `api_key` field followed by a `source` field. */
  function ReadQuery(path: string): Option<(string, string)>
  {
    if |path| < |EndpointPath| || path[..|EndpointPath|] != EndpointPath then None
    else
      var fields := Split(TakeUntil(path[|EndpointPath|..], '#'), '&');
      if |fields| == 2 && IsField(fields[0], KeyName) && IsField(fields[1], SourceName)
      then Some((fields[0][|KeyName|..], fields[1][|SourceName|..]))
      else None
  }

  /** A token that stands in a query as it is: it neither splits a field nor
      ends the query. */
  predicate QuerySafe(token: string)
  {
    '&' !in token && '#' !in token
  }

  /** Whatever `ReadQuery` gives back holds no `&` and no `#`. */
  lemma ReadQueryValuesAreSafe(path: string)
    ensures ReadQuery(path).Some? ==> QuerySafe(ReadQuery(path).value.0) && QuerySafe(ReadQuery(path).value.1)
  {
    if ReadQuery(path).Some? {
      var query := TakeUntil(path[|EndpointPath|..], '#');
      var fields := Split(query, '&');
      assert fields[0] in fields && fields[1] in fields;
      assert forall x <- fields[0][|KeyName|..] :: x in fields[0];
      assert forall x <- fields[1][|SourceName|..] :: x in fields[1];
    }
  }

  /** Two fields joined by one separator split back into those two fields. */
  lemma SplitTwo(a: string, b: string, sep: char)
    requires sep !in a && sep !in b
    ensures Split(a + [sep] + b, sep) == [a, b]
  {
    var s := a + [sep] + b;
    assert s[|a|] == sep;
    var i := IndexOf(s, sep).value;
    assert s[..i] == a;
    assert s[i + 1..] == b;
  }

  /** Safe tokens are read back from the path unchanged. */
  lemma SafeTokensReadBack(apiKey: string, sourceToken: string)
    requires QuerySafe(apiKey) && QuerySafe(sourceToken)
    ensures ReadQuery(BuildPath(apiKey, sourceToken)) == Some((apiKey, sourceToken))
  {
    var path := BuildPath(apiKey, sourceToken);
    var keyField := KeyName + apiKey;
    var sourceField := SourceName + sourceToken;
    var query := keyField + "&" + sourceField;
    assert path == EndpointPath + query;
    assert path[..|EndpointPath|] == EndpointPath;
    assert path[|EndpointPath|..] == query;
    assert '&' !in keyField && '&' !in sourceField by {
      assert '&' !in KeyName && '&' !in SourceName;
    }
    assert '#' !in query by {
      assert '#' !in KeyName && '#' !in SourceName && '#' !in "&";
    }
    assert TakeUntil(query, '#') == query;
    SplitTwo(keyField, sourceField, '&');
    assert query == keyField + ['&'] + sourceField;
    assert Split(query, '&') == [keyField, sourceField];
    assert keyField[..|KeyName|] == KeyName && keyField[|KeyName|..] == apiKey;
    assert sourceField[..|SourceName|] == SourceName && sourceField[|SourceName|..] == sourceToken;
    var fields := Split(TakeUntil(path[|EndpointPath|..], '#'), '&');
    assert fields == [keyField, sourceField];
    assert IsField(fields[0], KeyName) && IsField(fields[1], SourceName);
  }

  /** The path carries both tokens so that they can be read back exactly when,
      and only when, neither holds `&` or `#`: the tokens are not escaped. */
  lemma PathRoundTrip(apiKey: string, sourceToken: string)
    ensures ReadQuery(BuildPath(apiKey, sourceToken)) == Some((apiKey, sourceToken)) <==>
      QuerySafe(apiKey) && QuerySafe(sourceToken)
  {
    ReadQueryValuesAreSafe(BuildPath(apiKey, sourceToken));
    if QuerySafe(apiKey) && QuerySafe(sourceToken) {
      SafeTokensReadBack(apiKey, sourceToken);
    }
  }

  // ---------------------------------------------------------------------------
  // Response interpretation

  /** The guard chain applied to a received response: it must be HTTP, its
      status must be 2xx and its parsed body must be a dictionary whose
      `message` is a string, checked in that order. */
  function Classify(body: Option<JsonValue>, response: UrlResponse, url: Url): (r: Result<LogflareResponse, LogflareError>)
    ensures r.Success? <==>
      && response.Http? && IsOk(response.statusCode)
      && body.Some? && body.value.JObject?
      && "message" in body.value.fields && body.value.fields["message"].JString?
    ensures r.Success? ==> r.value.message == body.value.fields["message"].s
    ensures r.Failure? ==>
      r.error.response == Some(response) && r.error.data == body && r.error.underlyingError == None
    ensures !response.Http? ==> r.Failure? && r.error.errorDescription == InvalidResponse
    ensures response.Http? && !IsOk(response.statusCode) ==>
      r.Failure? && r.error.errorDescription == NotOkMessage(url)
    ensures response.Http? && IsOk(response.statusCode) && r.Failure? ==>
      r.error.errorDescription == InvalidJson
  {
    if !response.Http? then
      Failure(LogflareError(InvalidResponse, None, Some(response), body))
    else if !IsOk(response.statusCode) then
      Failure(LogflareError(NotOkMessage(url), None, Some(response), body))
    else match body
      case Some(JObject(fields)) =>
        if "message" in fields && fields["message"].JString? then
          Success(LogflareResponse(fields["message"].s))
        else
          Failure(LogflareError(InvalidJson, None, Some(response), body))
      case _ =>
        Failure(LogflareError(InvalidJson, None, Some(response), body))
  }

  /** `s` contains `t` starting at position `i`. */
  predicate OccursAt(s: string, t: string, i: int)
  {
    0 <= i <= |s| - |t| && s[i..i + |t|] == t
  }

  /** The error for a status outside 2xx names the URL that was requested. */
  lemma NotOkMentionsUrl(url: Url)
    ensures exists i :: OccursAt(NotOkMessage(url), url.absoluteString, i)
  {
    var lead := "Network response was not ok for \"";
    assert NotOkMessage(url) == lead + url.absoluteString + "\"";
    assert OccursAt(NotOkMessage(url), url.absoluteString, |lead|);
  }

  /** The `catch` block: the client's own errors pass through unchanged,
      anything else becomes "Unknown error" wrapping the original. */
  function Normalise(thrown: Thrown): (e: LogflareError)
    ensures thrown.Flare? ==> e == thrown.error
    ensures thrown.Foreign? ==>
      && e.underlyingError == Some(thrown.cause)
      && e.errorDescription == "Unknown error: " + thrown.cause.description
      && e.response == None && e.data == None
  {
    match thrown
    case Flare(error) => error
    case Foreign(cause) => LogflareError("Unknown error: " + cause.description, Some(cause), None, None)
  }

  /** The body of the `do` block: one round trip, then the guard chain on the
      tolerantly parsed body. */
  function Exchange(env: Env, request: Request, url: Url): Result<LogflareResponse, Thrown>
  {
    match env.perform(request)
    case Failed(cause) => Failure(Foreign(cause))
    case Received(data, response) =>
      match Classify(env.parse(data), response, url)
      case Success(reply) => Success(reply)
      case Failure(error) => Failure(Flare(error))
  }

  /** The hook calls for one failure: one when a hook is configured, none otherwise. */
  function Notify(hook: Option<ErrorHook>, payload: Payload, error: LogflareError): seq<Notification>
  {
    match hook
    case Some(h) => [Notification(h, payload, error)]
    case None => []
  }

  // ---------------------------------------------------------------------------
  // Sending

  /** What `sendEvents(batch)` does for a client configured as `config`. */
  function Send(config: Config, batch: seq<Event>, env: Env): (t: SendOutcome)
    ensures |t.performed| <= 1
    ensures var resolved := env.resolve(BuildPath(config.apiKey, config.sourceToken), config.apiURL);
      t.performed != [] <==> resolved.Some? && env.serialize(MakePayload(batch)).Success?
    ensures t.performed == [] ==> t.result.Failure? && t.notified == []
    ensures t.result.Success? ==> t.notified == []
    ensures t.result.Failure? && t.performed != [] ==>
      t.notified == Notify(config.onError, MakePayload(batch), t.result.error)
    ensures t.performed != [] ==>
      var resolved := env.resolve(BuildPath(config.apiKey, config.sourceToken), config.apiURL);
      var encoded := env.serialize(MakePayload(batch));
      && resolved.Some? && encoded.Success?
      && t.performed[0].url == resolved.value
      && t.performed[0].httpMethod == "POST"
      && t.performed[0].headers == JsonHeaders
      && t.performed[0].httpBody == Some(encoded.value)
  {
    var payload := MakePayload(batch);
    match env.resolve(BuildPath(config.apiKey, config.sourceToken), config.apiURL)
    case None => SendOutcome(Failure(Plain(InvalidUrl)), [], [])
    case Some(url) =>
      match env.serialize(payload)
      case Failure(cause) => SendOutcome(Failure(SerializationFailed(cause)), [], [])
      case Success(bytes) =>
        var request := Request(url, "POST", JsonHeaders, Some(bytes));
        match Exchange(env, request, url)
        case Success(reply) => SendOutcome(Success(reply), [request], [])
        case Failure(thrown) =>
          var error := Normalise(thrown);
          SendOutcome(Failure(error), [request], Notify(config.onError, payload, error))
  }

  /** A failure to compose the URL or to serialize the payload is thrown
      before any request is made and without calling the hook. */
  lemma EarlyFailuresAreSilent(config: Config, batch: seq<Event>, env: Env)
    ensures var resolved := env.resolve(BuildPath(config.apiKey, config.sourceToken), config.apiURL);
      resolved.None? ==> Send(config, batch, env) == SendOutcome(Failure(Plain(InvalidUrl)), [], [])
    ensures var resolved := env.resolve(BuildPath(config.apiKey, config.sourceToken), config.apiURL);
      var encoded := env.serialize(MakePayload(batch));
      resolved.Some? && encoded.Failure? ==>
        Send(config, batch, env) == SendOutcome(Failure(SerializationFailed(encoded.error)), [], [])
  {
  }

  /** A call succeeds exactly when the URL composes, the payload serializes
      and the round trip brings back a 2xx HTTP response whose body parses to
      a dictionary with a string `message`; that string is the result. */
  lemma SendSucceedsIff(config: Config, batch: seq<Event>, env: Env)
    ensures var resolved := env.resolve(BuildPath(config.apiKey, config.sourceToken), config.apiURL);
      var encoded := env.serialize(MakePayload(batch));
      var t := Send(config, batch, env);
      t.result.Success? <==>
        && resolved.Some? && encoded.Success?
        && var reply := env.perform(Request(resolved.value, "POST", JsonHeaders, Some(encoded.value)));
           && reply.Received? && reply.response.Http? && IsOk(reply.response.statusCode)
           && var body := env.parse(reply.data);
              && body.Some? && body.value.JObject? && "message" in body.value.fields
              && body.value.fields["message"].JString?
              && t.result.value.message == body.value.fields["message"].s
  {
  }

  /** Once a request has been made, the error thrown is the guard chain's
      error unchanged, or the transport's error wrapped as "Unknown error". */
  lemma TransportErrorsAreClassified(config: Config, batch: seq<Event>, env: Env)
    ensures var t := Send(config, batch, env);
      t.performed != [] && t.result.Failure? ==>
        match env.perform(t.performed[0])
        case Failed(cause) => t.result.error == Normalise(Foreign(cause))
        case Received(data, response) =>
          t.result.error == Classify(env.parse(data), response, t.performed[0].url).error
  {
  }

  // ---------------------------------------------------------------------------
  // The client object

  /** `Logflare`: a client whose four fields never change after construction.
      The ghost logs record the requests it has performed and the calls it
      has made to its error hook. */
  class Logflare {
    const sourceToken: string
    const apiKey: string
    const apiURL: Url
    const onError: Option<ErrorHook>

    ghost var requests: seq<Request>
    ghost var notifications: seq<Notification>

    function Settings(): Config
    {
      Config(sourceToken, apiKey, apiURL, onError)
    }

    constructor (config: Config)
      requires config.sourceToken != [] && config.apiKey != []
      ensures Settings() == config
      ensures requests == [] && notifications == []
    {
      sourceToken := config.sourceToken;
      apiKey := config.apiKey;
      apiURL := config.apiURL;
      onError := config.onError;
      requests := [];
      notifications := [];
    }

    /** `Logflare.init(options:)`, which throws on an empty token. */
    static method Init(options: ClientOptions) returns (r: Result<Logflare, LogflareError>)
      ensures r.Failure? ==> Configure(options) == Failure(r.error)
      ensures r.Success? ==>
        && Configure(options) == Success(r.value.Settings())
        && fresh(r.value) && r.value.sourceToken != [] && r.value.apiKey != []
        && r.value.requests == [] && r.value.notifications == []
    {
      if options.sourceToken == [] {
        return Failure(Plain(SourceTokenMissing));
      }
      if options.apiKey == [] {
        return Failure(Plain(ApiKeyMissing));
      }
      var url := DefaultApiUrl;
      if options.apiURL.Some? {
        url := options.apiURL.value;
      }
      var client := new Logflare(Config(options.sourceToken, options.apiKey, url, options.onError));
      return Success(client);
    }

    /** `sendEvents(batch)`: build the request step by step, perform it, check
        the reply; on a failure inside the request/response block call the
        hook with the payload and the error, then throw that error. */
    method SendEvents(batch: seq<Event>, env: Env) returns (r: Result<LogflareResponse, LogflareError>)
      modifies this
      ensures var t := Send(Settings(), batch, env);
        && r == t.result
        && requests == old(requests) + t.performed
        && notifications == old(notifications) + t.notified
    {
      var path := BuildPath(apiKey, sourceToken);
      var payload := MakePayload(batch);

      var resolved := env.resolve(path, apiURL);
      if resolved.None? {
        return Failure(Plain(InvalidUrl));
      }
      var url := resolved.value;

      var request := NewRequest(url);
      request := request.(httpMethod := "POST");
      request := request.(headers := request.headers["Content-Type" := "application/json"]);
      request := request.(headers := request.headers["Accept" := "application/json, text/plain, */*"]);

      var encoded := env.serialize(payload);
      if encoded.Failure? {
        return Failure(SerializationFailed(encoded.error));
      }
      request := request.(httpBody := Some(encoded.value));

      var caught: Thrown;
      requests := requests + [request];
      var reply := env.perform(request);
      if reply.Failed? {
        caught := Foreign(reply.error);
      } else {
        var responseJson := env.parse(reply.data);
        var checked := Classify(responseJson, reply.response, url);
        if checked.Success? {
          return checked;
        }
        caught := Flare(checked.error);
      }

      var error := Normalise(caught);
      if onError.Some? {
        notifications := notifications + [Notification(onError.value, payload, error)];
      }
      return Failure(error);
    }

    /** `sendEvent(event)`: the same as sending the one-event batch `[event]`. */
    method SendEvent(event: Event, env: Env) returns (r: Result<LogflareResponse, LogflareError>)
      modifies this
      ensures var t := Send(Settings(), [event], env);
        && r == t.result
        && requests == old(requests) + t.performed
        && notifications == old(notifications) + t.notified
    {
      r := SendEvents([event], env);
    }
  }
}
