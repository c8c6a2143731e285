/** The Azure OpenAI client of pkg/gpt3: its record of settings, the
    options that update it, `NewClient`, and the `Completion`,
    `ChatCompletion` and `CompletionStream` calls. */
module Gpt3 {
  import opened Common
  import opened Gpt3Http
  import opened Gpt3Stream

  const DefaultAPIVersion: string := "2023-03-15-preview"
  const DefaultUserAgent: string := "kubectl-openai"
  const DefaultTimeoutSeconds: int := 30

  /** `time.Second`: durations are counted in nanoseconds. */
  const Second: int := 1_000_000_000

  /** The part of `http.Client` the options touch. */
  class HttpClient {
    var timeout: int

    constructor (timeout: int)
      ensures this.timeout == timeout
    {
      this.timeout := timeout;
    }
  }

  /** A `ClientOption`. The four options of client_options.go never fail;
      `Rejecting` stands for an option defined elsewhere that returns an
      error without changing the client. */
  datatype ClientOption =
    | WithAPIVersion(apiVersion: string)
    | WithUserAgent(userAgent: string)
    | WithHTTPClient(httpClient: HttpClient)
    | WithTimeout(timeout: int)
    | Rejecting(reason: Error)

  /** The settings the options change, as a value: the client's API version,
      user agent and HTTP client, and the timeout written so far into each
      HTTP client the options reached. */
  datatype Setup = Setup(apiVersion: string, userAgent: string, httpClient: HttpClient, timeouts: map<HttpClient, int>)

  /** The settings `NewClient` starts from, with its own HTTP client `h`. */
  function InitialSetup(h: HttpClient): Setup
  {
    Setup(DefaultAPIVersion, DefaultUserAgent, h, map[h := DefaultTimeoutSeconds * Second])
  }

  /** The timeout an HTTP client has after the options, `original` if they
      never wrote it. */
  function TimeoutOf(s: Setup, h: HttpClient, original: int): int
  {
    if h in s.timeouts then s.timeouts[h] else original
  }

  /** One option applied to the settings. */
  function ApplyOption(s: Setup, o: ClientOption): Result<Setup, Error>
  {
    match o
    case WithAPIVersion(v) => Success(s.(apiVersion := v))
    case WithUserAgent(u) => Success(s.(userAgent := u))
    case WithHTTPClient(h) => Success(s.(httpClient := h))
    case WithTimeout(d) => Success(s.(timeouts := s.timeouts[s.httpClient := d]))
    case Rejecting(e) => Failure(e)
  }

  /** The settings after some options, and the error that stopped them. */
  datatype Configured = Configured(setup: Setup, error: Option<Error>)

  /** The options applied in order, stopping at the first error; what was
      written before the error stays written. */
  function Configure(s: Setup, options: seq<ClientOption>): Configured
    decreases |options|
  {
    if options == [] then Configured(s, None)
    else
      match ApplyOption(s, options[0])
      case Failure(e) => Configured(s, Some(e))
      case Success(next) => Configure(next, options[1..])
  }

  /** The HTTP clients handed in by `WithHTTPClient` options. */
  function SuppliedClients(options: seq<ClientOption>): set<HttpClient>
  {
    set i | 0 <= i < |options| && options[i].WithHTTPClient? :: options[i].httpClient
  }

  predicate NoRejecting(options: seq<ClientOption>)
  {
    forall i :: 0 <= i < |options| ==> !options[i].Rejecting?
  }

  /** Applying `a` then `b` is applying `a + b`, unless `a` already failed. */
  lemma {:induction false} ConfigureAppend(s: Setup, a: seq<ClientOption>, b: seq<ClientOption>)
    ensures var ra := Configure(s, a);
      Configure(s, a + b) == if ra.error.Some? then ra else Configure(ra.setup, b)
    decreases |a|
  {
    if a == [] {
      assert a + b == b;
    } else {
      assert (a + b)[0] == a[0] && (a + b)[1..] == a[1..] + b;
      match ApplyOption(s, a[0])
      case Failure(e) =>
      case Success(next) => ConfigureAppend(next, a[1..], b);
    }
  }

  /** None of the four options fails, so `NewClient` given only them always
      succeeds. */
  lemma {:induction false} KnownOptionsNeverFail(s: Setup, options: seq<ClientOption>)
    requires NoRejecting(options)
    ensures Configure(s, options).error == None
    decreases |options|
  {
    if options != [] {
      assert !options[0].Rejecting?;
      KnownOptionsNeverFail(ApplyOption(s, options[0]).value, options[1..]);
    }
  }

  /** The first failing option aborts: later options are not applied, and the
      error is the one it returned. */
  lemma FirstErrorAborts(s: Setup, before: seq<ClientOption>, reason: Error, after: seq<ClientOption>)
    requires NoRejecting(before)
    ensures Configure(s, before + [Rejecting(reason)] + after)
         == Configured(Configure(s, before).setup, Some(reason))
  {
    KnownOptionsNeverFail(s, before);
    ConfigureAppend(s, before, [Rejecting(reason)] + after);
    assert before + [Rejecting(reason)] + after == before + ([Rejecting(reason)] + after);
  }

  /** A later setter overrides an earlier one. */
  lemma LaterSetterWins(s: Setup, options: seq<ClientOption>, apiVersion: string, userAgent: string)
    requires NoRejecting(options)
    ensures Configure(s, options + [WithAPIVersion(apiVersion)]).setup.apiVersion == apiVersion
    ensures Configure(s, options + [WithUserAgent(userAgent)]).setup.userAgent == userAgent
  {
    KnownOptionsNeverFail(s, options);
    ConfigureAppend(s, options, [WithAPIVersion(apiVersion)]);
    ConfigureAppend(s, options, [WithUserAgent(userAgent)]);
  }

  /** `WithTimeout` followed by `WithHTTPClient(h)`: the timeout went to the
      HTTP client that was current and is lost with it; `h` keeps its own. */
  lemma TimeoutThenHttpClient(s: Setup, timeout: int, h: HttpClient, original: int)
    requires h != s.httpClient
    ensures var r := Configure(s, [WithTimeout(timeout), WithHTTPClient(h)]);
      && r.error == None && r.setup.httpClient == h
      && TimeoutOf(r.setup, h, original) == TimeoutOf(s, h, original)
      && TimeoutOf(r.setup, s.httpClient, original) == timeout
  {
    var timed := s.(timeouts := s.timeouts[s.httpClient := timeout]);
    assert [WithTimeout(timeout), WithHTTPClient(h)][1..] == [WithHTTPClient(h)];
    assert Configure(s, [WithTimeout(timeout), WithHTTPClient(h)]) == Configure(timed, [WithHTTPClient(h)]);
    assert Configure(timed, [WithHTTPClient(h)]) == Configure(timed.(httpClient := h), []);
  }

  /** `WithHTTPClient(h)` followed by `WithTimeout`: the caller's own `h` gets
      the timeout. */
  lemma HttpClientThenTimeout(s: Setup, h: HttpClient, timeout: int, original: int)
    ensures var r := Configure(s, [WithHTTPClient(h), WithTimeout(timeout)]);
      && r.error == None && r.setup.httpClient == h
      && TimeoutOf(r.setup, h, original) == timeout
  {
    var switched := s.(httpClient := h);
    assert [WithHTTPClient(h), WithTimeout(timeout)][1..] == [WithTimeout(timeout)];
    assert Configure(s, [WithHTTPClient(h), WithTimeout(timeout)]) == Configure(switched, [WithTimeout(timeout)]);
    assert Configure(switched, [WithTimeout(timeout)])
        == Configure(switched.(timeouts := s.timeouts[h := timeout]), []);
  }

  /** The HTTP client a configured client uses is its own or one handed in. */
  lemma {:induction false} ConfiguredClientIsKnown(s: Setup, options: seq<ClientOption>)
    ensures var r := Configure(s, options);
      r.setup.httpClient == s.httpClient || r.setup.httpClient in SuppliedClients(options)
    ensures s.timeouts.Keys <= Configure(s, options).setup.timeouts.Keys
    decreases |options|
  {
    if options != [] {
      match ApplyOption(s, options[0])
      case Failure(e) =>
      case Success(next) =>
        ConfiguredClientIsKnown(next, options[1..]);
        assert forall h :: h in SuppliedClients(options[1..]) ==> h in SuppliedClients(options) by {
          forall h | h in SuppliedClients(options[1..]) ensures h in SuppliedClients(options) {
            var i :| 0 <= i < |options[1..]| && options[1..][i].WithHTTPClient? && options[1..][i].httpClient == h;
            assert options[i + 1] == options[1..][i];
          }
        }
        if options[0].WithHTTPClient? {
          assert options[0].httpClient in SuppliedClients(options);
        }
    }
  }

  /** `client`. */
  class Client {
    var endpoint: string
    var apiKey: string
    var deploymentName: string
    var apiVersion: string
    var userAgent: string
    var httpClient: HttpClient

    constructor (endpoint: string, apiKey: string, deploymentName: string, apiVersion: string, userAgent: string, httpClient: HttpClient)
      ensures this.endpoint == endpoint && this.apiKey == apiKey && this.deploymentName == deploymentName
      ensures this.apiVersion == apiVersion && this.userAgent == userAgent && this.httpClient == httpClient
    {
      this.endpoint := endpoint;
      this.apiKey := apiKey;
      this.deploymentName := deploymentName;
      this.apiVersion := apiVersion;
      this.userAgent := userAgent;
      this.httpClient := httpClient;
    }

    /** The settings requests are built from. */
    function Config(): ClientConfig
      reads this
    {
      ClientConfig(endpoint, apiKey, deploymentName, apiVersion, userAgent)
    }

    /** What an option does to the client: each of the four assigns one field,
        `WithTimeout` the `Timeout` of whichever HTTP client is current. */
    method Apply(o: ClientOption) returns (err: Option<Error>)
      modifies this, httpClient
      ensures err == (if o.Rejecting? then Some(o.reason) else None)
      ensures endpoint == old(endpoint) && apiKey == old(apiKey) && deploymentName == old(deploymentName)
      ensures apiVersion == (if o.WithAPIVersion? then o.apiVersion else old(apiVersion))
      ensures userAgent == (if o.WithUserAgent? then o.userAgent else old(userAgent))
      ensures httpClient == (if o.WithHTTPClient? then o.httpClient else old(httpClient))
      ensures old(httpClient).timeout == (if o.WithTimeout? then o.timeout else old(httpClient.timeout))
    {
      match o
      case WithAPIVersion(v) => apiVersion := v; err := None;
      case WithUserAgent(u) => userAgent := u; err := None;
      case WithHTTPClient(h) => httpClient := h; err := None;
      case WithTimeout(d) => httpClient.timeout := d; err := None;
      case Rejecting(e) => err := Some(e);
    }

    /** `Completion`: build the request, perform it, decode the body. */
    function Completion<R>(request: CompletionRequest, wire: Wire, decode: seq<byte> -> Option<R>): Result<R, ClientError>
      reads this
    {
      match CompletionHttpRequest(Config(), request, wire)
      case Failure(e) => Failure(e)
      case Success(req) =>
        match PerformRequest(req, wire)
        case Failure(e) => Failure(e)
        case Success(resp) => GetResponseObject(resp, decode)
    }

    /** `ChatCompletion`: the same steps with the chat request. */
    function ChatCompletion<R>(request: ChatCompletionRequest, wire: Wire, decode: seq<byte> -> Option<R>): Result<R, ClientError>
      reads this
    {
      match ChatCompletionHttpRequest(Config(), request, wire)
      case Failure(e) => Failure(e)
      case Success(req) =>
        match PerformRequest(req, wire)
        case Failure(e) => Failure(e)
        case Success(resp) => GetResponseObject(resp, decode)
    }

    /** The streamed response `CompletionStream` reads, or the error that
        comes before any reading. */
    function StreamResponse(request: CompletionRequest, wire: Wire): Result<HttpResponse, ClientError>
      reads this
    {
      match CompletionStreamHttpRequest(Config(), request, wire)
      case Failure(e) => Failure(e)
      case Success(req) => PerformRequest(req, wire)
    }

    /** `CompletionStream`, with `delivered` the arguments of the `onData`
        calls in order: nothing is delivered when the request fails, and
        otherwise the delivered responses and the returned error are those of
        `DecodeBody` on the response body. */
    method CompletionStream<R>(request: CompletionRequest, wire: Wire, parse: seq<byte> -> Option<R>)
      returns (err: Option<ClientError>, delivered: seq<R>)
      ensures var resp := StreamResponse(request, wire);
        && (resp.Failure? ==> err == Some(resp.error) && delivered == [])
        && (resp.Success? ==>
              var o := DecodeBody(resp.value.body, parse);
              delivered == o.delivered && err == StopError(o.stop))
    {
      var req := CompletionStreamHttpRequest(Config(), request, wire);
      if req.Failure? {
        return Some(req.error), [];
      }
      var resp := PerformRequest(req.value, wire);
      if resp.Failure? {
        return Some(resp.error), [];
      }
      var reader := new LineReader(resp.value.body);
      err, delivered := ReadEvents(reader, parse);
    }
  }

  /** The error `CompletionStream` returns for each way the stream stops:
      none at "[DONE]". */
  function StopError(stop: Stop): Option<ClientError>
  {
    match stop
    case Finished => None
    case ReadFailed(f) => Some(StreamReadFailed(f))
    case InvalidJson(p) => Some(InvalidJsonStream(p))
  }

  /** One turn of the read loop of `CompletionStream`, up to the dispatch:
      read a line and, unless the read fails, trim it, drop the data prefix
      and test for "[DONE]" or parse the payload. */
  method NextEvent<R>(reader: LineReader, parse: seq<byte> -> Option<R>)
    returns (readErr: Option<ReadFailure>, event: Event<R>)
    requires reader.Valid()
    modifies reader
    ensures reader.Valid()
    ensures old(reader.remaining) == [] ==> readErr == Some(reader.end)
    ensures old(reader.remaining) != [] ==>
      && readErr == None && old(reader.pos) < reader.pos
      && event == LineEvent(old(reader.remaining)[0], parse)
      && reader.remaining == old(reader.remaining)[1..]
  {
    var line;
    line, readErr := reader.ReadBytes();
    if readErr.Some? {
      return readErr, Skip;
    }
    line := TrimSpace(line);
    if !HasPrefix(line, DataPrefix) {
      return None, Skip;
    }
    line := line[|DataPrefix|..];
    if HasPrefix(line, DoneSequence) {
      return None, Finish;
    }
    var output := parse(line);
    if output.None? {
      return None, Unparsable(line);
    }
    event := Item(output.value);
  }

  /** The read loop of `CompletionStream`: line by line until "[DONE]", a
      read error or a payload that does not parse, handing each parsed
      payload to `onData`; what it delivers and returns is `Run` of the lines
      the reader has left. */
  method ReadEvents<R>(reader: LineReader, parse: seq<byte> -> Option<R>)
    returns (err: Option<ClientError>, delivered: seq<R>)
    requires reader.Valid()
    modifies reader
    ensures var o := Run(old(reader.remaining), reader.end, parse);
      delivered == o.delivered && err == StopError(o.stop)
  {
    ghost var all := Run(reader.remaining, reader.end, parse);
    delivered := [];
    while true
      invariant reader.Valid()
      invariant var rest := Run(reader.remaining, reader.end, parse);
        all == Outcome(rest.stop, delivered + rest.delivered)
      decreases |reader.data| - reader.pos
    {
      ghost var lines := reader.remaining;
      var readErr, event := NextEvent(reader, parse);
      if readErr.Some? {
        return Some(StreamReadFailed(readErr.value)), delivered;
      }
      assert lines != [] && event == LineEvent(lines[0], parse);
      ghost var rest := Run(lines[1..], reader.end, parse);
      match event
      case Skip =>
        assert Run(lines, reader.end, parse) == rest;
      case Finish =>
        break;
      case Unparsable(p) =>
        return Some(InvalidJsonStream(p)), delivered;
      case Item(r) =>
        assert Run(lines, reader.end, parse) == Outcome(rest.stop, [r] + rest.delivered);
        ConcatAssociative(delivered, [r], rest.delivered);
        delivered := delivered + [r];
    }
    err := None;
  }

  /** `NewClient`. Its own HTTP client, `defaultHttpClient`, starts with a
      30-second timeout; the options are applied in order and the first error
      aborts with no client. Whatever the outcome, the HTTP clients the
      options reached keep the timeouts written into them. */
  method NewClient(endpoint: string, apiKey: string, deploymentName: string, options: seq<ClientOption>)
    returns (c: Client?, err: Option<Error>, ghost defaultHttpClient: HttpClient)
    modifies SuppliedClients(options)
    ensures fresh(defaultHttpClient)
    ensures var r := Configure(InitialSetup(defaultHttpClient), options);
      && err == r.error
      && (err.Some? ==> c == null)
      && (err.None? ==>
            && c != null && fresh(c)
            && c.endpoint == endpoint && c.apiKey == apiKey && c.deploymentName == deploymentName
            && c.apiVersion == r.setup.apiVersion && c.userAgent == r.setup.userAgent
            && c.httpClient == r.setup.httpClient)
      && defaultHttpClient.timeout == TimeoutOf(r.setup, defaultHttpClient, 0)
      && forall h :: h in SuppliedClients(options) ==> h.timeout == TimeoutOf(r.setup, h, old(h.timeout))
  {
    var httpClient := new HttpClient(DefaultTimeoutSeconds * Second);
    defaultHttpClient := httpClient;
    var client := new Client(endpoint, apiKey, deploymentName, DefaultAPIVersion, DefaultUserAgent, httpClient);
    ghost var s := InitialSetup(httpClient);
    ConfiguredClientIsKnown(s, options);
    for i := 0 to |options|
      invariant Configure(InitialSetup(httpClient), options) == Configure(s, options[i..])
      invariant client.endpoint == endpoint && client.apiKey == apiKey && client.deploymentName == deploymentName
      invariant client.apiVersion == s.apiVersion && client.userAgent == s.userAgent && client.httpClient == s.httpClient
      invariant s.httpClient == httpClient || s.httpClient in SuppliedClients(options)
      invariant httpClient in s.timeouts && httpClient.timeout == s.timeouts[httpClient]
      invariant forall h :: h in SuppliedClients(options) ==> h.timeout == TimeoutOf(s, h, old(h.timeout))
    {
      var e := client.Apply(options[i]);
      if e.Some? {
        return null, e, httpClient;
      }
      s := ApplyOption(s, options[i]).value;
      assert options[i..][1..] == options[i + 1..];
      if options[i].WithHTTPClient? {
        assert options[i].httpClient in SuppliedClients(options);
      }
    }
    assert options[|options|..] == [];
    return client, None, httpClient;
  }

  /** A non-2xx response never reaches the decoder: `Completion` returns what
      `checkForSuccess` made of it. */
  lemma CompletionReportsStatusErrors<R>(c: Client, request: CompletionRequest, wire: Wire, decode: seq<byte> -> Option<R>, resp: HttpResponse)
    requires CompletionHttpRequest(c.Config(), request, wire).Success?
    requires wire.send(CompletionHttpRequest(c.Config(), request, wire).value) == Success(resp)
    requires !(200 <= resp.statusCode < 300)
    ensures CheckForSuccess(resp, wire.decodeError).Some?
    ensures c.Completion(request, wire, decode) == Failure(CheckForSuccess(resp, wire.decodeError).value)
  {
  }

  /** The same for `ChatCompletion`. */
  lemma ChatCompletionReportsStatusErrors<R>(c: Client, request: ChatCompletionRequest, wire: Wire, decode: seq<byte> -> Option<R>, resp: HttpResponse)
    requires ChatCompletionHttpRequest(c.Config(), request, wire).Success?
    requires wire.send(ChatCompletionHttpRequest(c.Config(), request, wire).value) == Success(resp)
    requires !(200 <= resp.statusCode < 300)
    ensures CheckForSuccess(resp, wire.decodeError).Some?
    ensures c.ChatCompletion(request, wire, decode) == Failure(CheckForSuccess(resp, wire.decodeError).value)
  {
  }

  /** A 2xx response is decoded: its body gives the result, and a body that
      does not decode gives the invalid-JSON error. */
  lemma CompletionDecodes2xx<R>(c: Client, request: CompletionRequest, wire: Wire, decode: seq<byte> -> Option<R>, resp: HttpResponse)
    requires CompletionHttpRequest(c.Config(), request, wire).Success?
    requires wire.send(CompletionHttpRequest(c.Config(), request, wire).value) == Success(resp)
    requires 200 <= resp.statusCode < 300
    ensures decode(resp.body.data).Some? ==> c.Completion(request, wire, decode) == Success(decode(resp.body.data).value)
    ensures decode(resp.body.data).None? ==> c.Completion(request, wire, decode) == Failure(InvalidJsonResponse)
  {
    SuccessExactlyFor2xx(resp, wire.decodeError);
  }

  /** The same for `ChatCompletion`. */
  lemma ChatCompletionDecodes2xx<R>(c: Client, request: ChatCompletionRequest, wire: Wire, decode: seq<byte> -> Option<R>, resp: HttpResponse)
    requires ChatCompletionHttpRequest(c.Config(), request, wire).Success?
    requires wire.send(ChatCompletionHttpRequest(c.Config(), request, wire).value) == Success(resp)
    requires 200 <= resp.statusCode < 300
    ensures decode(resp.body.data).Some? ==> c.ChatCompletion(request, wire, decode) == Success(decode(resp.body.data).value)
    ensures decode(resp.body.data).None? ==> c.ChatCompletion(request, wire, decode) == Failure(InvalidJsonResponse)
  {
    SuccessExactlyFor2xx(resp, wire.decodeError);
  }

  /** Errors before any response is read are returned as they are: the
      request that cannot be built, and the transport failure. */
  lemma EarlyErrorsPassThrough<R>(c: Client, request: CompletionRequest, chat: ChatCompletionRequest, wire: Wire, decode: seq<byte> -> Option<R>)
    ensures var req := CompletionHttpRequest(c.Config(), request, wire);
      && (req.Failure? ==> c.Completion(request, wire, decode) == Failure(req.error))
      && (req.Success? && wire.send(req.value).Failure? ==>
            c.Completion(request, wire, decode) == Failure(TransportFailed(wire.send(req.value).error)))
    ensures var req := ChatCompletionHttpRequest(c.Config(), chat, wire);
      && (req.Failure? ==> c.ChatCompletion(chat, wire, decode) == Failure(req.error))
      && (req.Success? && wire.send(req.value).Failure? ==>
            c.ChatCompletion(chat, wire, decode) == Failure(TransportFailed(wire.send(req.value).error)))
  {
  }

  /** A result comes back only from a 2xx response whose body decodes to it,
      for both `Completion` and `ChatCompletion`. */
  lemma SuccessMeansDecoded2xx<R>(c: Client, request: CompletionRequest, chat: ChatCompletionRequest, wire: Wire, decode: seq<byte> -> Option<R>)
    ensures var r := c.Completion(request, wire, decode);
      r.Success? ==>
        var req := CompletionHttpRequest(c.Config(), request, wire);
        && req.Success? && wire.send(req.value).Success?
        && 200 <= wire.send(req.value).value.statusCode < 300
        && decode(wire.send(req.value).value.body.data) == Some(r.value)
    ensures var r := c.ChatCompletion(chat, wire, decode);
      r.Success? ==>
        var req := ChatCompletionHttpRequest(c.Config(), chat, wire);
        && req.Success? && wire.send(req.value).Success?
        && 200 <= wire.send(req.value).value.statusCode < 300
        && decode(wire.send(req.value).value.body.data) == Some(r.value)
  {
    var req := CompletionHttpRequest(c.Config(), request, wire);
    if req.Success? {
      PerformedResponsesAre2xx(req.value, wire);
    }
    var chatReq := ChatCompletionHttpRequest(c.Config(), chat, wire);
    if chatReq.Success? {
      PerformedResponsesAre2xx(chatReq.value, wire);
    }
  }
}
