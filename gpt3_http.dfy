/** The request and response values of pkg/gpt3: request construction
    (`newRequest` and the per-operation path templates and `Stream` flag),
    status classification (`checkForSuccess`), `performRequest` and
    `getResponseObject`. JSON, URL parsing and the network are the
    parameters gathered in `Wire`. */
module Gpt3Http {
  import opened Common

  /** What ends the reads of a body: `io.EOF` when the connection closed
      cleanly, any other read error otherwise. */
  datatype ReadFailure = EOF | ReadError(reason: string)

  /** A response body: the bytes that arrive, then the read error that ends
      them. */
  datatype Body = Body(data: seq<byte>, end: ReadFailure)

  datatype HttpResponse = HttpResponse(statusCode: int, body: Body)

  /** `APIError` (its Go fields StatusCode, Type and Message). */
  datatype APIError = APIError(statusCode: int, errorType: string, message: string)

  /** The fields of the two request records that the client touches; the
      other fields go to the JSON encoder untouched. */
  datatype CompletionRequest = CompletionRequest(prompt: seq<string>, maxTokens: Option<int>, stream: bool)
  datatype ChatMessage = ChatMessage(role: string, content: string)
  datatype ChatCompletionRequest = ChatCompletionRequest(messages: seq<ChatMessage>, maxTokens: Option<int>, stream: bool)

  datatype Payload = CompletionPayload(completion: CompletionRequest) | ChatPayload(chat: ChatCompletionRequest)
  {
    predicate Streaming()
    {
      match this
      case CompletionPayload(r) => r.stream
      case ChatPayload(r) => r.stream
    }
  }

  /** An outgoing request, with its payload before JSON encoding. */
  datatype HttpRequest = HttpRequest(verb: string, url: string, header: map<string, string>, body: Payload)

  /** The fields of `client` that requests are built from. */
  datatype ClientConfig = ClientConfig(endpoint: string, apiKey: string, deploymentName: string, apiVersion: string, userAgent: string)

  /** The collaborators a call goes through: whether `json.Marshal` accepts a
      payload, whether `http.NewRequestWithContext` accepts a URL, the
      transport (`httpClient.Do`), and `json.Unmarshal` of an error body
      into `APIErrorResponse`, giving its `Error` field. */
  datatype Wire = Wire(
    encodable: Payload -> bool,
    validUrl: string -> bool,
    send: HttpRequest -> Result<HttpResponse, string>,
    decodeError: seq<byte> -> Option<APIError>)

  /** The errors a client call returns. */
  datatype ClientError =
    | EncodingFailed                    // "failed encoding json: %w"
    | InvalidRequest                    // error of http.NewRequestWithContext
    | TransportFailed(reason: string)   // error of httpClient.Do
    | BodyReadFailed(failure: ReadFailure) // "failed to read from body: %w"
    | Api(apiError: APIError)           // a non-2xx status
    | InvalidJsonResponse               // "invalid json response: %w"
    | StreamReadFailed(failure: ReadFailure) // a read error of the stream, as it is
    | InvalidJsonStream(payload: seq<byte>)  // "invalid json stream data: %w"

  datatype Operation = CompletionOp | ChatCompletionOp | CompletionStreamOp | EditsOp | SearchOp | EmbeddingsOp

  /** The path each operation posts to. */
  function PathOf(op: Operation, deploymentName: string): string
  {
    match op
    case CompletionOp => "/openai/deployment/" + deploymentName + "/completions"
    case ChatCompletionOp => "/openai/deployment/" + deploymentName + "/chat/completions"
    case CompletionStreamOp => "/openai/deployments/" + deploymentName + "/completions"
    case EditsOp => "/edits"
    case SearchOp => "openai/deployments/" + deploymentName + "/search"
    case EmbeddingsOp => "/embeddings"
  }

  /** The URL `newRequest` formats: endpoint, path and the api-version query,
      joined with nothing added or removed. */
  function RequestUrl(endpoint: string, path: string, apiVersion: string): string
  {
    endpoint + path + "?api-version=" + apiVersion
  }

  /** The two headers every request carries. */
  function RequestHeader(apiKey: string): map<string, string>
  {
    map["Content-type" := "application/json", "api-key" := apiKey]
  }

  /** `newRequest`. */
  function NewRequest(cfg: ClientConfig, verb: string, path: string, payload: Payload, wire: Wire): (r: Result<HttpRequest, ClientError>)
  {
    var url := RequestUrl(cfg.endpoint, path, cfg.apiVersion);
    if !wire.encodable(payload) then Failure(EncodingFailed)
    else if !wire.validUrl(url) then Failure(InvalidRequest)
    else Success(HttpRequest(verb, url, RequestHeader(cfg.apiKey), payload))
  }

  /** The request of `Completion`: `Stream` forced off, singular
      "deployment" path. */
  function CompletionHttpRequest(cfg: ClientConfig, request: CompletionRequest, wire: Wire): Result<HttpRequest, ClientError>
  {
    NewRequest(cfg, "POST", PathOf(CompletionOp, cfg.deploymentName), CompletionPayload(request.(stream := false)), wire)
  }

  /** The request of `ChatCompletion`: `Stream` forced off. */
  function ChatCompletionHttpRequest(cfg: ClientConfig, request: ChatCompletionRequest, wire: Wire): Result<HttpRequest, ClientError>
  {
    NewRequest(cfg, "POST", PathOf(ChatCompletionOp, cfg.deploymentName), ChatPayload(request.(stream := false)), wire)
  }

  /** The request of `CompletionStream`: `Stream` forced on, plural
      "deployments" path. */
  function CompletionStreamHttpRequest(cfg: ClientConfig, request: CompletionRequest, wire: Wire): Result<HttpRequest, ClientError>
  {
    NewRequest(cfg, "POST", PathOf(CompletionStreamOp, cfg.deploymentName), CompletionPayload(request.(stream := true)), wire)
  }

  /** A built request posts to exactly endpoint + path + "?api-version=" +
      version, carries exactly the two headers, and fails only when the payload
      cannot be encoded or the URL is refused. */
  lemma NewRequestShape(cfg: ClientConfig, verb: string, path: string, payload: Payload, wire: Wire)
    ensures var r := NewRequest(cfg, verb, path, payload, wire);
      && (r.Success? <==> wire.encodable(payload) && wire.validUrl(RequestUrl(cfg.endpoint, path, cfg.apiVersion)))
      && (r.Success? ==>
            && r.value.verb == verb
            && HasPrefix(r.value.url, cfg.endpoint + path)
            && HasSuffix(r.value.url, "?api-version=" + cfg.apiVersion)
            && |r.value.url| == |cfg.endpoint| + |path| + 13 + |cfg.apiVersion|
            && r.value.header.Keys == {"Content-type", "api-key"}
            && r.value.header["Content-type"] == "application/json"
            && r.value.header["api-key"] == cfg.apiKey
            && r.value.body == payload)
  {
    var url := RequestUrl(cfg.endpoint, path, cfg.apiVersion);
    assert url[..|cfg.endpoint + path|] == cfg.endpoint + path;
    assert url[|url| - |"?api-version=" + cfg.apiVersion|..] == "?api-version=" + cfg.apiVersion;
  }

  /** The user agent is never sent: two configurations that differ only in it
      build the same request. */
  lemma RequestIgnoresUserAgent(cfg: ClientConfig, userAgent: string, verb: string, path: string, payload: Payload, wire: Wire)
    ensures NewRequest(cfg.(userAgent := userAgent), verb, path, payload, wire) == NewRequest(cfg, verb, path, payload, wire)
  {
  }

  /** No slash is added or removed: an endpoint with a trailing slash gives a
      doubled slash in front of the path. */
  lemma NoSlashNormalisation(apiVersion: string)
    ensures RequestUrl("https://h/", PathOf(EmbeddingsOp, ""), apiVersion)
         == "https://h//embeddings?api-version=" + apiVersion
  {
  }

  /** `Search`'s path alone lacks the leading slash. */
  lemma SearchPathLacksSlash(deploymentName: string)
    ensures PathOf(SearchOp, deploymentName)[0] == 'o'
    ensures forall op :: op != SearchOp ==> PathOf(op, deploymentName)[0] == '/'
  {
  }

  /** `Completion` posts with `Stream` turned off to the singular
      "deployment" path; every other request field is passed on. */
  lemma CompletionRequestShape(cfg: ClientConfig, request: CompletionRequest, wire: Wire)
    ensures var r := CompletionHttpRequest(cfg, request, wire);
      r.Success? ==>
        && r.value.verb == "POST" && !r.value.body.Streaming()
        && r.value.body == CompletionPayload(CompletionRequest(request.prompt, request.maxTokens, false))
        && r.value.url == cfg.endpoint + "/openai/deployment/" + cfg.deploymentName + "/completions?api-version=" + cfg.apiVersion
  {
    var d := cfg.deploymentName;
    assert cfg.endpoint + ("/openai/deployment/" + d + "/completions") + "?api-version=" + cfg.apiVersion
        == cfg.endpoint + "/openai/deployment/" + d + "/completions?api-version=" + cfg.apiVersion;
  }

  /** `ChatCompletion` posts with `Stream` turned off to the singular
      "deployment" chat path. */
  lemma ChatCompletionRequestShape(cfg: ClientConfig, request: ChatCompletionRequest, wire: Wire)
    ensures var r := ChatCompletionHttpRequest(cfg, request, wire);
      r.Success? ==>
        && r.value.verb == "POST" && !r.value.body.Streaming()
        && r.value.body == ChatPayload(ChatCompletionRequest(request.messages, request.maxTokens, false))
        && r.value.url == cfg.endpoint + "/openai/deployment/" + cfg.deploymentName + "/chat/completions?api-version=" + cfg.apiVersion
  {
    var d := cfg.deploymentName;
    assert cfg.endpoint + ("/openai/deployment/" + d + "/chat/completions") + "?api-version=" + cfg.apiVersion
        == cfg.endpoint + "/openai/deployment/" + d + "/chat/completions?api-version=" + cfg.apiVersion;
  }

  /** `CompletionStream` posts with `Stream` turned on to the plural
      "deployments" path. */
  lemma CompletionStreamRequestShape(cfg: ClientConfig, request: CompletionRequest, wire: Wire)
    ensures var r := CompletionStreamHttpRequest(cfg, request, wire);
      r.Success? ==>
        && r.value.verb == "POST" && r.value.body.Streaming()
        && r.value.body == CompletionPayload(CompletionRequest(request.prompt, request.maxTokens, true))
        && r.value.url == cfg.endpoint + "/openai/deployments/" + cfg.deploymentName + "/completions?api-version=" + cfg.apiVersion
  {
    var d := cfg.deploymentName;
    assert cfg.endpoint + ("/openai/deployments/" + d + "/completions") + "?api-version=" + cfg.apiVersion
        == cfg.endpoint + "/openai/deployments/" + d + "/completions?api-version=" + cfg.apiVersion;
  }

  /** `checkForSuccess`: `None` for a 2xx status; otherwise the body is
      read to its end and becomes the decoded error with the status stamped
      on, or, when it does not decode, an "Unexpected" error carrying the body
      text. */
  function CheckForSuccess(resp: HttpResponse, decodeError: seq<byte> -> Option<APIError>): (r: Option<ClientError>)
  {
    if 200 <= resp.statusCode < 300 then None
    else if resp.body.end != EOF then Some(BodyReadFailed(resp.body.end))
    else
      match decodeError(resp.body.data)
      case None => Some(Api(APIError(resp.statusCode, "Unexpected", ByteString(resp.body.data))))
      case Some(e) => Some(Api(e.(statusCode := resp.statusCode)))
  }

  /** Success exactly for the statuses 200 to 299. */
  lemma SuccessExactlyFor2xx(resp: HttpResponse, decodeError: seq<byte> -> Option<APIError>)
    ensures CheckForSuccess(resp, decodeError).None? <==> 200 <= resp.statusCode < 300
  {
  }

  /** A non-2xx body that is read in full but does not decode is reported as
      an "Unexpected" error whose message is the body text. */
  lemma UndecodableBodyIsUnexpected(resp: HttpResponse, decodeError: seq<byte> -> Option<APIError>)
    requires !(200 <= resp.statusCode < 300) && resp.body.end == EOF
    requires decodeError(resp.body.data).None?
    ensures var r := CheckForSuccess(resp, decodeError);
      r.Some? && r.value.Api? && r.value.apiError.statusCode == resp.statusCode
      && r.value.apiError.errorType == "Unexpected"
      && |r.value.apiError.message| == |resp.body.data|
      && forall i :: 0 <= i < |resp.body.data| ==> r.value.apiError.message[i] as int == resp.body.data[i] as int
  {
  }

  /** A decoded error keeps its type and message and gets the HTTP status,
      whatever status the body itself carried. */
  lemma DecodedErrorGetsStatus(resp: HttpResponse, decodeError: seq<byte> -> Option<APIError>)
    requires !(200 <= resp.statusCode < 300) && resp.body.end == EOF
    requires decodeError(resp.body.data).Some?
    ensures var e := decodeError(resp.body.data).value;
      CheckForSuccess(resp, decodeError) == Some(Api(APIError(resp.statusCode, e.errorType, e.message)))
  {
  }

  /** A status 400 whose body decodes to type "invalid_request" and message
      "bad request" gives exactly that error with status 400. */
  lemma BadRequestExample(body: seq<byte>, decodeError: seq<byte> -> Option<APIError>)
    requires decodeError(body) == Some(APIError(0, "invalid_request", "bad request"))
    ensures CheckForSuccess(HttpResponse(400, Body(body, EOF)), decodeError)
         == Some(Api(APIError(400, "invalid_request", "bad request")))
  {
  }

  /** `performRequest`: the transport, then `CheckForSuccess`. */
  function PerformRequest(req: HttpRequest, wire: Wire): (r: Result<HttpResponse, ClientError>)
  {
    match wire.send(req)
    case Failure(reason) => Failure(TransportFailed(reason))
    case Success(resp) =>
      match CheckForSuccess(resp, wire.decodeError)
      case Some(e) => Failure(e)
      case None => Success(resp)
  }

  /** A response handed back by `PerformRequest` always has a 2xx status. */
  lemma PerformedResponsesAre2xx(req: HttpRequest, wire: Wire)
    ensures var r := PerformRequest(req, wire);
      r.Success? ==> wire.send(req) == Success(r.value) && 200 <= r.value.statusCode < 300
  {
  }

  /** `getResponseObject`: decode the body, or "invalid json response". */
  function GetResponseObject<R>(resp: HttpResponse, decode: seq<byte> -> Option<R>): (r: Result<R, ClientError>)
  {
    match decode(resp.body.data)
    case None => Failure(InvalidJsonResponse)
    case Some(v) => Success(v)
  }
}
