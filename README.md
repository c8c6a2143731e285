# terraform-ai-go: completion client and front end, in Dafny

This project models the part of terraform-ai-go that turns a prompt history into a model call and decodes the answer:

- the Azure OpenAI client of `pkg/gpt3`:
  - how a client is configured by its options;
  - how requests are built and checked for success;
  - the server-sent-event loop of `CompletionStream`;
- the front end in `cmd/cli/completion.go`:
  - the Azure deployment-name check;
  - the choice of backend and the model classifiers;
  - prompt assembly and the call that is dispatched;
- the file-name helpers of `pkg/utils`.

Modules, one per file:

- `Common` (`common.dfy`): option and result values, Go errors with `%w` wrapping, bytes, and prefix, suffix and trimming.
- `Base64Url` (`base64url.dfy`): unpadded base64 over the URL-safe alphabet of RFC 4648, section 5, with a canonical decoder; the two are proved inverse in both directions.
- `Utils` (`utils.dfy`): `RemoveBlankLinesFromString`, `EndsWithTf`, `RandomName` and `GetName`.
- `Gpt3Http` (`gpt3_http.dfy`):
  - request and response values;
  - the paths of the operations, `newRequest`, `checkForSuccess`, `performRequest` and `getResponseObject`.
- `Gpt3Stream` (`gpt3_stream.dfy`):
  - a `bufio.Reader`-style `LineReader` class;
  - the meaning of a streamed body, as a line-by-line function `Run`;
  - an independent characterisation of that meaning, `Explains`.
- `Gpt3` (`gpt3.dfy`):
  - the `Client` and `HttpClient` classes, with the options as a method that updates fields;
  - `NewClient`, with its option loop, proved against the value-level specification `Configure`;
  - `Completion` and `ChatCompletion`;
  - `CompletionStream`, with its read loop proved against `DecodeBody`.
- `Cli` (`cli.dfy`):
  - a hand-written matcher for `^[a-zA-Z0-9]+([_-]?[a-zA-Z0-9]+)*$`, proved equal to a structural description of the names it accepts;
  - the classifiers and the backend choice;
  - the dispatched call, compared with the call the classification calls for;
  - `newOAIClients`;
  - `completion`, with its prompt loop.

Things the model takes as parameters:

- Request encoding, URL parsing, the transport and the decoding of error bodies are a `Wire` value of functions.
- The decoding of a response body and of a stream payload are separate function parameters (`decode` of `Completion` and `ChatCompletion`, `parse` of `CompletionStream`).
- The five random bytes of `RandomName` are an argument.
- `calculateMaxTokens` and the four backend calls of `oaiClients` are function arguments of `Cli.Completion`.
- The global flags read by `cmd/cli` (endpoint, key, deployment name) are arguments.

Where the code does not compile, the model follows its evident intent:

- `cmd/cli/completion.go:28` reads `openAIPIKey` and line 34 reads `openAIAPIKey`. Only the first is declared, so both backends take the same key.
- `cmd/cli/completion.go:32` returns `oaiClient{}`; this is taken as `oaiClients{}`.
- `cmd/cli/completion.go:54` calls `fmt.Printf(&prompt, subCommand)` and redeclares `err`. It is modelled as writing `subCommand` into the builder, as line 60 writes each entry.
- `cmd/cli/completion.go:84` and `:91` call an undefined `azureGptChatCompletion`, line 91 without a receiver. They are modelled as `client.azureChatGptCompletion`.

Behaviours the model states as they are, or corrects:

- `cmd/cli/completion.go:78` compiles, but it wraps `&err`, a `*error`, with `%w`. At run time `Errorf` then prints a "%!w(*error=…)" placeholder and wraps nothing. The model corrects this and wraps `err`.
- The non-chat branches of `completion` (lines 76 and 91) call the chat-style call, as written, although their error texts name the legacy call. `Cli.DispatchedCall` models the code. `Cli.RoutedCall` is the reference the classification implies. `Cli.DispatchIgnoresClassification` proves that the two agree exactly for chat models.
- A connection closed before "[DONE]" ends the stream with the read error; `CompletionStream` returns it unchanged, `io.EOF` included (`Gpt3Stream.EndBeforeDoneIsReadError`).

## Model

| member | source | states |
|---|---|---|
| Utils.RemoveBlankLinesFromString | pkg/utils/utils.go:9-11 | the result is a suffix of the input; everything removed is one of '\n', '\r', ' ', '\t'; the result is empty or starts with another character |
| Utils.RemoveBlankLinesIdempotent | pkg/utils/utils.go:9-11 | trimming twice is trimming once |
| Utils.RemoveBlankLinesKeepsUnblankInput | pkg/utils/utils.go:9-11 | an input that does not start with a blank character comes back unchanged |
| Utils.RemoveBlankLinesKeepsTail | pkg/utils/utils.go:9-11 | once a non-blank character is present, whatever follows the input, trailing blanks included, is kept |
| Utils.EndsWithTf | pkg/utils/terraform.go:12-14 | `strings.HasSuffix(str, ".tf")`; its meaning is stated by `Utils.EndsWithTfExactly` |
| Utils.EndsWithTfExactly | pkg/utils/terraform.go:12-14 | `EndsWithTf(s)` holds exactly when `s` is some `p + ".tf"` |
| Base64Url.Encode | pkg/utils/terraform.go:22 | the encoding has (8n+5)/6 symbols for n bytes, all from A-Z a-z 0-9 - _ |
| Base64Url.GroupRoundTrip | pkg/utils/terraform.go:22 | decoding the symbols of one group of 1 to 3 bytes gives the group back |
| Base64Url.DecodeEncode | pkg/utils/terraform.go:22 | decoding an encoding gives the bytes back, so the encoding loses nothing |
| Base64Url.GroupCanonical | pkg/utils/terraform.go:22 | a group of symbols that decodes, zero fill bits included, is the encoding of the bytes it decodes to |
| Base64Url.EncodeDecode | pkg/utils/terraform.go:22 | a string that decodes to some bytes is their encoding, so each byte string has exactly one encoding and `Decode` is its inverse |
| Base64Url.EncodeFooba | pkg/utils/terraform.go:22 | the bytes of "fooba" encode to "Zm9vYmE", the RFC 4648 section 10 test vector without padding |
| Base64Url.EncodeUrlSafeSymbols | pkg/utils/terraform.go:22 | the bytes 251, 255 encode to "-_8", with '-' for 62 and '_' for 63 |
| Base64Url.EncodeFive | pkg/utils/terraform.go:17-22 | five bytes encode to seven symbols |
| Utils.RandomName | pkg/utils/terraform.go:16-24 | the name is "terraform-", seven base64url symbols that decode to the five random bytes, and ".tf"; 20 characters long |
| Utils.RandomNameIsEncoding | pkg/utils/terraform.go:22-23 | the name is exactly "terraform-" + the unpadded base64url encoding of the bytes + ".tf" |
| Utils.RandomNameInjective | pkg/utils/terraform.go:16-24 | different random bytes give different names |
| Utils.GetName | pkg/utils/terraform.go:26-32 | the left-trimmed name when it ends in ".tf", `RandomName` otherwise; the result always ends in ".tf" |
| Utils.TrailingNewlineGetsRandomName | pkg/utils/terraform.go:26-32 | "x.tf\n" is replaced by a random name, because only leading blanks are trimmed |
| Utils.LeadingBlankLinesDropped | pkg/utils/terraform.go:26-32 | "\n\t main.tf" becomes "main.tf" |
| Gpt3Http.PathOf | pkg/gpt3/gpt3.go:80-191 | the path of each operation; what each is, is stated by `Gpt3Http.SearchPathLacksSlash` and the three request-shape lemmas |
| Gpt3Http.NewRequest | pkg/gpt3/gpt3.go:261-278 | `newRequest`: encode the payload, format the URL, build the request and set the two headers; its contract is `Gpt3Http.NewRequestShape` |
| Gpt3Http.CompletionHttpRequest | pkg/gpt3/gpt3.go:78-83 | the request of `Completion`, with Stream forced off; its shape is stated by `Gpt3Http.CompletionRequestShape` |
| Gpt3Http.ChatCompletionHttpRequest | pkg/gpt3/gpt3.go:96-101 | the request of `ChatCompletion`, with Stream forced off; its shape is stated by `Gpt3Http.ChatCompletionRequestShape` |
| Gpt3Http.CompletionStreamHttpRequest | pkg/gpt3/gpt3.go:119-124 | the request of `CompletionStream`, with Stream forced on; its shape is stated by `Gpt3Http.CompletionStreamRequestShape` |
| Gpt3Http.NewRequestShape | pkg/gpt3/gpt3.go:261-278 | the request fails exactly when the payload cannot be encoded or the URL is refused; otherwise its URL is endpoint + path, then "?api-version=" + version, its headers are exactly Content-type: application/json and api-key, and its body is the payload |
| Gpt3Http.RequestIgnoresUserAgent | pkg/gpt3/gpt3.go:261-278 | the configured user agent never reaches a request |
| Gpt3Http.NoSlashNormalisation | pkg/gpt3/gpt3.go:267 | a trailing slash on the endpoint doubles the slash before the path |
| Gpt3Http.SearchPathLacksSlash | pkg/gpt3/gpt3.go:175 | the Search path alone does not start with '/' |
| Gpt3Http.CompletionRequestShape | pkg/gpt3/gpt3.go:78-80 | `Completion` posts with Stream off to /openai/deployment/{d}/completions |
| Gpt3Http.ChatCompletionRequestShape | pkg/gpt3/gpt3.go:96-98 | `ChatCompletion` posts with Stream off to /openai/deployment/{d}/chat/completions |
| Gpt3Http.CompletionStreamRequestShape | pkg/gpt3/gpt3.go:119-121 | `CompletionStream` posts with Stream on to the plural /openai/deployments/{d}/completions |
| Gpt3Http.CheckForSuccess | pkg/gpt3/gpt3.go:218-238 | `checkForSuccess`; its contract is stated by `Gpt3Http.SuccessExactlyFor2xx`, `Gpt3Http.UndecodableBodyIsUnexpected` and `Gpt3Http.DecodedErrorGetsStatus` |
| Gpt3Http.SuccessExactlyFor2xx | pkg/gpt3/gpt3.go:218-221 | a response passes exactly when 200 <= status < 300 |
| Gpt3Http.UndecodableBodyIsUnexpected | pkg/gpt3/gpt3.go:222-235 | a non-2xx body that does not decode gives an "Unexpected" API error with the status and the body text as message |
| Gpt3Http.DecodedErrorGetsStatus | pkg/gpt3/gpt3.go:236-237 | a decoded error keeps its type and message and takes the HTTP status in place of its own |
| Gpt3Http.BadRequestExample | pkg/gpt3/gpt3.go:218-238 | status 400 with an "invalid_request" body gives that error with status 400 |
| Gpt3Http.PerformRequest | pkg/gpt3/gpt3.go:207-216 | `performRequest`: the transport's error, or the `checkForSuccess` error, or the response; stated by `Gpt3Http.PerformedResponsesAre2xx` |
| Gpt3Http.GetResponseObject | pkg/gpt3/gpt3.go:240-246 | `getResponseObject`: the decoded body or "invalid json response"; stated for the two calls by `Gpt3.CompletionDecodes2xx` and `Gpt3.ChatCompletionDecodes2xx` |
| Gpt3Http.PerformedResponsesAre2xx | pkg/gpt3/gpt3.go:207-216 | `performRequest` only hands back responses the transport returned with a 2xx status |
| Gpt3Stream.TrimSpace | pkg/gpt3/gpt3.go:137 | the trimmed line neither starts nor ends with white space |
| Gpt3Stream.TrimSpaceCuts | pkg/gpt3/gpt3.go:137 | the trimmed line is a slice of the line, and only white space is cut from either end |
| Gpt3Stream.Lines | pkg/gpt3/gpt3.go:133 | the lines successive `ReadBytes('\n')` calls return without error; characterised by `Gpt3Stream.LinesComplete` and `Gpt3Stream.LinesConcat` |
| Gpt3Stream.LinesComplete | pkg/gpt3/gpt3.go:133 | each line `ReadBytes('\n')` returns without error ends in its only '\n' |
| Gpt3Stream.LinesConcat | pkg/gpt3/gpt3.go:133 | the lines put together are the body up to its last '\n', after which no '\n' is left |
| Gpt3Stream.LinesIgnoreUnterminatedTail | pkg/gpt3/gpt3.go:133-136 | bytes after the last '\n' never form a line |
| Gpt3Stream.LineReader.constructor | pkg/gpt3/gpt3.go:129 | a reader starts at the beginning of the body |
| Gpt3Stream.LineReader.ReadBytes | pkg/gpt3/gpt3.go:133 | the next complete line with no error, or else the leftover bytes with the error that ends the body |
| Gpt3Stream.DataPayload | pkg/gpt3/gpt3.go:137-142 | the trimmed line without its "data: " prefix, or nothing for a line without it; `Gpt3Stream.RunSeesOnlyPayloads` shows the lines without it play no part |
| Gpt3Stream.PayloadEvent | pkg/gpt3/gpt3.go:143-151 | "[DONE]" finishes, an unparsable payload stops, a parsed one is delivered; stated over whole streams by `Gpt3Stream.RunPayloadsExplained` |
| Gpt3Stream.LineEvent | pkg/gpt3/gpt3.go:137-151 | what one line makes the loop do; `Gpt3.NextEvent` is proved to classify each line this way |
| Gpt3Stream.Run | pkg/gpt3/gpt3.go:132-155 | the meaning of the read loop over a sequence of lines: what it dispatches and how it stops; characterised by `Gpt3Stream.RunSeesOnlyPayloads`, `Gpt3Stream.RunPayloadsExplained` and `Gpt3Stream.ExplainsUnique` |
| Gpt3Stream.DecodeBody | pkg/gpt3/gpt3.go:129-155 | `Run` of the complete lines of a body; characterised by `Gpt3Stream.DecodeBodyExplained` |
| Gpt3Stream.RunPayloadsExplained | pkg/gpt3/gpt3.go:132-155 | the result satisfies `Explains`: the delivered responses parse the payloads before the stopping one, none of which is "[DONE]"; the stream finishes at the first "[DONE]", fails at the first unparsable payload, and otherwise ends with the read error |
| Gpt3Stream.ExplainsUnique | pkg/gpt3/gpt3.go:132-155 | `Explains` admits exactly one outcome, the one `RunPayloads` gives |
| Gpt3Stream.RunSeesOnlyPayloads | pkg/gpt3/gpt3.go:137-140 | lines without "data: " after trimming play no part |
| Gpt3Stream.DecodeBodyExplained | pkg/gpt3/gpt3.go:132-155 | a body decodes as its data payloads do: each payload before the stopping one is dispatched exactly once, in order |
| Gpt3Stream.UnterminatedLineNeverDispatched | pkg/gpt3/gpt3.go:133-136 | a final line with no '\n' is never dispatched |
| Gpt3Stream.EndBeforeDoneIsReadError | pkg/gpt3/gpt3.go:133-136 | payloads that all parse, with no "[DONE]", are all dispatched and the read error is returned, `io.EOF` included |
| Gpt3Stream.DoneAfterPayloads | pkg/gpt3/gpt3.go:143-145 | payloads followed by "[DONE]" are all dispatched in order and the stream finishes; nothing after "[DONE]" is looked at |
| Gpt3.HttpClient.constructor | pkg/gpt3/gpt3.go:54-56 | the HTTP client gets the timeout given |
| Gpt3.Client.constructor | pkg/gpt3/gpt3.go:59-66 | each field of the client is set from its argument |
| Gpt3.Client.Apply | pkg/gpt3/client_options.go:11-37 | `WithAPIVersion`, `WithUserAgent` and `WithHTTPClient` each change only their own field; `WithTimeout` changes only the `Timeout` of the current HTTP client; only a rejecting option returns an error |
| Gpt3.InitialSetup | pkg/gpt3/gpt3.go:53-66 | the settings before any option: the default API version and user agent, and the default HTTP client with a 30-second timeout; used by `Gpt3.NewClient` |
| Gpt3.TimeoutOf | pkg/gpt3/gpt3.go:54-56 | the timeout a configuration has written into an HTTP client, or the client's own when none was written; used by `Gpt3.NewClient` |
| Gpt3.ApplyOption | pkg/gpt3/client_options.go:11-37 | what one option does to the configuration; the field-level version is `Gpt3.Client.Apply`, and the options' properties are the lemmas below |
| Gpt3.Configure | pkg/gpt3/gpt3.go:69-73 | the option loop of `NewClient` on values, stopping at the first error; `Gpt3.NewClient` is proved against it |
| Gpt3.ConfigureAppend | pkg/gpt3/gpt3.go:69-73 | options are applied in order: applying `a + b` is applying `a`, then `b` unless `a` failed |
| Gpt3.KnownOptionsNeverFail | pkg/gpt3/client_options.go:11-37 | the four options never return an error |
| Gpt3.FirstErrorAborts | pkg/gpt3/gpt3.go:69-73 | the first failing option stops the loop with its error, and later options are not applied |
| Gpt3.LaterSetterWins | pkg/gpt3/gpt3.go:69-73 | a later `WithAPIVersion` or `WithUserAgent` overrides earlier ones |
| Gpt3.TimeoutThenHttpClient | pkg/gpt3/client_options.go:25-37 | a timeout set before `WithHTTPClient(h)` goes to the former HTTP client and leaves `h` as it was |
| Gpt3.HttpClientThenTimeout | pkg/gpt3/client_options.go:25-37 | a timeout set after `WithHTTPClient(h)` is written into the caller's `h` |
| Gpt3.ConfiguredClientIsKnown | pkg/gpt3/client_options.go:25-30 | the configured HTTP client is the default one or one handed in by an option |
| Gpt3.NewClient | pkg/gpt3/gpt3.go:52-76 | the result is `Configure` of the options from the defaults "2023-03-15-preview", "kubectl-openai" and a fresh HTTP client with a 30-second timeout; on an error there is no client; the timeouts the options wrote into the default and the supplied HTTP clients are kept, whatever the outcome |
| Gpt3.Client.Completion | pkg/gpt3/gpt3.go:78-94 | `Completion`: build, perform, decode; its behaviour is stated by the four lemmas below |
| Gpt3.Client.ChatCompletion | pkg/gpt3/gpt3.go:96-112 | `ChatCompletion`: the same steps with the chat request; stated by the same lemmas |
| Gpt3.EarlyErrorsPassThrough | pkg/gpt3/gpt3.go:78-87 | for both calls, a request that cannot be built returns that error, and a transport failure returns that failure |
| Gpt3.CompletionDecodes2xx | pkg/gpt3/gpt3.go:85-93 | for a 2xx response to its request, `Completion` succeeds with the decoded body, or fails with "invalid json response" when the body does not decode |
| Gpt3.ChatCompletionDecodes2xx | pkg/gpt3/gpt3.go:103-111 | the same for `ChatCompletion` |
| Gpt3.ChatCompletionReportsStatusErrors | pkg/gpt3/gpt3.go:96-112 | a non-2xx response is never decoded; `ChatCompletion` returns the error `checkForSuccess` made of it |
| Gpt3.CompletionReportsStatusErrors | pkg/gpt3/gpt3.go:78-94 | a non-2xx response is never decoded; `Completion` returns the error `checkForSuccess` made of it |
| Gpt3.SuccessMeansDecoded2xx | pkg/gpt3/gpt3.go:78-112 | `Completion` and `ChatCompletion` succeed only with the decoding of a 2xx body sent back for their own request |
| Gpt3.StopError | pkg/gpt3/gpt3.go:133-155 | the error `CompletionStream` returns for each way the stream stops: the read error as it is, "invalid json stream data", or none at "[DONE]"; used by `Gpt3.ReadEvents` and `Gpt3.Client.CompletionStream` |
| Gpt3.Client.StreamResponse | pkg/gpt3/gpt3.go:119-128 | the response `CompletionStream` reads, or the error of building or performing its request; used by `Gpt3.Client.CompletionStream` |
| Gpt3.NextEvent | pkg/gpt3/gpt3.go:133-151 | one turn of the read loop: with no complete line left, the read error of the body; otherwise that line is consumed and classified exactly as `LineEvent` classifies it (skipped, "[DONE]", unparsable payload, or a parsed response) |
| Gpt3.ReadEvents | pkg/gpt3/gpt3.go:132-155 | the read loop hands `onData` precisely the responses `Run` delivers for the lines left in the reader and returns the error matching how `Run` stops: none at "[DONE]", the read error, or the invalid-JSON error |
| Gpt3.Client.CompletionStream | pkg/gpt3/gpt3.go:119-156 | nothing is delivered when building or performing the request fails; otherwise the responses handed to `onData` and the returned error are those `DecodeBody` gives for the body |
| Cli.MatchesDeploymentPattern | cmd/cli/completion.go:30-31 | the matcher for `^[a-zA-Z0-9]+([_-]?[a-zA-Z0-9]+)*$`; what it accepts is stated by `Cli.DeploymentPatternExactly` |
| Cli.AfterAlnumAccepts | cmd/cli/completion.go:30 | after an alphanumeric, the rest of the name is accepted exactly when it has only allowed characters, no two separators in a row, and an alphanumeric at the end |
| Cli.DeploymentPatternExactly | cmd/cli/completion.go:30-31 | the pattern accepts exactly the names that are non-empty, made of [A-Za-z0-9_-], start and end with an alphanumeric, and never have two separators in a row |
| Cli.DeploymentPatternAcceptsAzureModel | cmd/cli/completion.go:30-31 | "gpt-35-turbo" is accepted |
| Cli.DeploymentPatternRejects | cmd/cli/completion.go:30-31 | "gpt-4-", "a__b", "gpt.4" and "" are refused |
| Cli.IsGptTurbo | cmd/cli/completion.go:99-101 | `isGptTurbo`; with the two below, characterised by `Cli.ChatModelsExactly` and `Cli.ClassifiersAreExact` |
| Cli.IsGptTurbo35 | cmd/cli/completion.go:103-105 | `isGptTurbo35` |
| Cli.IsGpt4 | cmd/cli/completion.go:107-109 | `isGpt4` |
| Cli.BackendOf | cmd/cli/completion.go:27 | OpenAI when the Azure endpoint is nil or "", Azure otherwise, the test lines 27 and 67 share; used by `Cli.NewOAIClients` and `Cli.Completion` |
| Cli.IsChatModel | cmd/cli/completion.go:68-83 | the branch tests of `completion`: `isGptTurbo` or `isGpt4` for OpenAI (line 68), `isGptTurbo35` or `isGpt4` for Azure (line 83); characterised by `Cli.ChatModelsExactly` |
| Cli.ChatModelsExactly | cmd/cli/completion.go:99-109 | the classifiers are exact matches against a table of four names per backend |
| Cli.ClassifiersAreExact | cmd/cli/completion.go:99-109 | names that only contain "gpt-4" are not chat models, and each backend recognises only its own spelling of GPT-3.5 Turbo |
| Cli.RoutedCall | cmd/cli/completion.go:67-96 | the reference routing: a call of the backend in use, and a chat call exactly for chat models |
| Cli.DispatchedCall | cmd/cli/completion.go:67-96 | the call each branch of `completion` makes, as written; compared with `Cli.RoutedCall` by `Cli.DispatchIgnoresClassification` |
| Cli.DispatchIgnoresClassification | cmd/cli/completion.go:67-96 | the dispatched call is always the chat call of the backend in use, and it equals the routed call exactly for chat models |
| Cli.ErrorContext | cmd/cli/completion.go:67-96 | the four wrapping prefixes of lines 71, 78, 86 and 93, one per backend and branch; used by `Cli.Completion` |
| Cli.JoinLines | cmd/cli/completion.go:59-65 | the text the history loop writes, each entry followed by "\n"; characterised by `Cli.JoinLinesAppend`, `Cli.JoinLinesCons` and `Cli.HistoryEntryInPlace` |
| Cli.ComposePrompt | cmd/cli/completion.go:53-65 | `subCommand` followed by the written history; `Cli.Completion`'s loop is proved to build it |
| Cli.JoinLinesAppend | cmd/cli/completion.go:59-65 | writing the history in two parts writes the same text as writing it at once |
| Cli.JoinLinesCons | cmd/cli/completion.go:59-65 | the written history starts with the first entry and a newline |
| Cli.HistoryEntryInPlace | cmd/cli/completion.go:59-65 | entry i and its newline follow the text of the entries before it |
| Cli.NewOAIClients | cmd/cli/completion.go:21-45 | with no Azure endpoint (nil or ""), an OpenAI client is built and the deployment name is not checked; otherwise a name the pattern refuses gives the deployment error, and an accepted one gives an Azure client with the endpoint, the key, the name and the default settings |
| Cli.Completion | cmd/cli/completion.go:47-97 | a max-token failure is wrapped as "error calculating max tokens:" and nothing is sent; otherwise the call is the dispatched call, the prompt is `subCommand` followed by each history entry and "\n" in order, with the computed ceiling and the temperature; the reply's failure is wrapped in the context of its branch |

## Left out

- `calculateMaxTokens` (`cmd/cli/completion.go:111-113`) has no body. It is a function argument of `Cli.Completion`, and no budgeting rule is modelled.
- `cmd/cli/openai.go` only declares the four backend calls, which have no bodies. They are a function argument of `Cli.Completion`. The OpenAI client of the external go-gpt3 library is a value holding its key.
- `cmd/cli/run.go`, `cmd/cli/init.go`, `cmd/cli/root.go` and `main.go` are not part of this model. They are the interactive apply loop, flag binding and process start-up, which is I/O orchestration.
- `TerraformPath` runs a subprocess, so it is not modelled.
- `crypto/rand` and the panic in `RandomName` are not modelled; the five random bytes are an argument.
- The HTTP transport, `context` cancellation and the effect of timeouts on requests are all in the `Wire` argument, and so are request encoding and the decoding of error bodies; response and stream-payload decoding are function parameters. The model records the timeout value written into each HTTP client, not what the transport does with it.
- The request and response structs come from `types.go`, which is not part of this model. Requests keep only the prompt or messages, the token ceiling and the Stream flag. Responses are whatever the decoder parameter returns.
- `Edits`, `Search` and `Embeddings` have request and response types that are not in the model. Only their paths are modelled (`Gpt3Http.PathOf`, `Gpt3Http.SearchPathLacksSlash`).
- `Gpt3Stream.TrimSpace` removes ASCII white space only. `bytes.TrimSpace` also removes Unicode spaces, which do not occur in the framing.
- Go's canonicalisation of header keys (`Content-type` becomes `Content-Type`) is left out. Headers are modelled as set.
- `Gpt3Http.GetResponseObject`: it decodes the body bytes and ignores a read error that ends the body.
- `Gpt3Http.CheckForSuccess`: it models the error of `io.ReadAll` as the error that ends the body. The "failed to read from body" wrapping is the `BodyReadFailed` error.
- `Gpt3.Client.Apply`: a caller-defined failing option is modelled as `Rejecting`, which changes nothing before it fails. An arbitrary option could change fields and then fail.
- `Gpt3.NewClient`: `WithHTTPClient(nil)` followed by `WithTimeout` would panic in Go. The model takes HTTP clients to be non-nil.
- `Cli.Completion`: the temperature is a `real`. The `float32` conversion and `utils.ToPtr` are not modelled.
- `Cli.Completion`: a `%` in `subCommand` is written verbatim. If line 54 were `Fprintf(&prompt, subCommand)`, Go would interpret it as a format verb.
- `Cli.Completion`: writes into a `strings.Builder` cannot fail, so the error branches at lines 55-57 and 61-63 are never taken and are not modelled.
- `Cli.NewOAIClients`: no option is passed to `NewClient`, so the "error create Azure client: " branch (lines 35-37) is never taken. The model proves the call succeeds.
- `Base64Url.Decode`: the program never decodes. This decoder is canonical and refuses non-zero fill bits, which Go's lenient `RawURLEncoding` decoder would accept. It exists only to show that the encoding is injective.
