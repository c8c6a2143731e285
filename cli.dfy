/** The completion front end of cmd/cli: the Azure deployment-name check,
    the choice of backend, the model classifiers, the prompt assembled from
    the history and the call each case dispatches to. */
module Cli {
  import opened Common
  import Gpt3

  predicate IsAlnum(c: char)
  {
    ('a' <= c <= 'z') || ('A' <= c <= 'Z') || ('0' <= c <= '9')
  }

  predicate IsSeparator(c: char)
  {
    c == '_' || c == '-'
  }

  /** The states of a matcher for `^[a-zA-Z0-9]+([_-]?[a-zA-Z0-9]+)*$`:
      an alphanumeric is due (at the start and after a separator), the last
      character was alphanumeric (the accepting state), or the match
      failed. */
  datatype MatchState = NeedAlnum | AfterAlnum | Rejected

  function Step(q: MatchState, c: char): MatchState
  {
    match q
    case NeedAlnum => if IsAlnum(c) then AfterAlnum else Rejected
    case AfterAlnum => if IsAlnum(c) then AfterAlnum else if IsSeparator(c) then NeedAlnum else Rejected
    case Rejected => Rejected
  }

  function Scan(q: MatchState, s: string): MatchState
    decreases |s|
  {
    if s == [] then q else Scan(Step(q, s[0]), s[1..])
  }

  /** `re.MatchString(deploymentName)` for the pattern of `newOAIClients`. */
  predicate MatchesDeploymentPattern(name: string)
  {
    Scan(NeedAlnum, name) == AfterAlnum
  }

  /** Every character is one of `[A-Za-z0-9_-]`. */
  predicate AllowedOnly(s: string)
  {
    forall i :: 0 <= i < |s| ==> IsAlnum(s[i]) || IsSeparator(s[i])
  }

  /** No `_` or `-` is followed by another. */
  predicate NoDoubleSeparator(s: string)
  {
    forall i :: 0 <= i < |s| - 1 ==> !(IsSeparator(s[i]) && IsSeparator(s[i + 1]))
  }

  /** What follows an alphanumeric in an accepted name: allowed characters
      only, no two separators in a row, and an alphanumeric at the end. */
  predicate ValidContinuation(s: string)
  {
    AllowedOnly(s) && NoDoubleSeparator(s) && (s == [] || IsAlnum(s[|s| - 1]))
  }

  /** The names the pattern is meant to accept: non-empty, made of
      `[A-Za-z0-9_-]`, starting and ending with an alphanumeric, and never
      two of `_` and `-` in a row. */
  predicate WellFormedDeploymentName(s: string)
  {
    |s| > 0 && AllowedOnly(s) && IsAlnum(s[0]) && IsAlnum(s[|s| - 1]) && NoDoubleSeparator(s)
  }

  lemma {:induction false} RejectedStays(s: string)
    ensures Scan(Rejected, s) == Rejected
    decreases |s|
  {
    if s != [] {
      RejectedStays(s[1..]);
    }
  }

  lemma AllowedOnlyCons(c: char, t: string)
    ensures AllowedOnly([c] + t) <==> (IsAlnum(c) || IsSeparator(c)) && AllowedOnly(t)
  {
    var s := [c] + t;
    if AllowedOnly(s) {
      assert s[0] == c;
      forall i | 0 <= i < |t| ensures IsAlnum(t[i]) || IsSeparator(t[i]) {
        assert t[i] == s[i + 1];
      }
    }
    if (IsAlnum(c) || IsSeparator(c)) && AllowedOnly(t) {
      forall i | 0 <= i < |s| ensures IsAlnum(s[i]) || IsSeparator(s[i]) {
        if i > 0 {
          assert s[i] == t[i - 1];
        }
      }
    }
  }

  lemma NoDoubleSeparatorCons(c: char, t: string)
    ensures NoDoubleSeparator([c] + t) <==>
      (t != [] ==> !(IsSeparator(c) && IsSeparator(t[0]))) && NoDoubleSeparator(t)
  {
    var s := [c] + t;
    if NoDoubleSeparator(s) {
      assert t != [] ==> s[0] == c && s[1] == t[0];
      forall i | 0 <= i < |t| - 1 ensures !(IsSeparator(t[i]) && IsSeparator(t[i + 1])) {
        assert t[i] == s[i + 1] && t[i + 1] == s[i + 2];
      }
    }
    if (t != [] ==> !(IsSeparator(c) && IsSeparator(t[0]))) && NoDoubleSeparator(t) {
      forall i | 0 <= i < |s| - 1 ensures !(IsSeparator(s[i]) && IsSeparator(s[i + 1])) {
        if i > 0 {
          assert s[i] == t[i - 1] && s[i + 1] == t[i];
        } else {
          assert s[0] == c && s[1] == t[0];
        }
      }
    }
  }

  /** A continuation of `c + t` is valid exactly when `t`'s is and `c` is
      allowed, alphanumeric if it is last, and not a separator next to a
      separator. */
  lemma ContinuationCons(c: char, t: string)
    ensures ValidContinuation([c] + t) <==>
      && (IsAlnum(c) || IsSeparator(c))
      && ValidContinuation(t)
      && (t == [] ==> IsAlnum(c))
      && (t != [] && IsSeparator(c) ==> !IsSeparator(t[0]))
  {
    var s := [c] + t;
    AllowedOnlyCons(c, t);
    NoDoubleSeparatorCons(c, t);
    assert t != [] ==> s[|s| - 1] == t[|t| - 1];
    assert t == [] ==> s[|s| - 1] == c;
  }

  /** From the accepting state the matcher accepts exactly the valid
      continuations. */
  lemma {:induction false} AfterAlnumAccepts(s: string)
    ensures Scan(AfterAlnum, s) == AfterAlnum <==> ValidContinuation(s)
    decreases |s|
  {
    if s != [] {
      var c, t := s[0], s[1..];
      assert s == [c] + t;
      ContinuationCons(c, t);
      if IsAlnum(c) {
        AfterAlnumAccepts(t);
      } else if IsSeparator(c) {
        if t == [] {
        } else if IsAlnum(t[0]) {
          assert t == [t[0]] + t[1..];
          ContinuationCons(t[0], t[1..]);
          AfterAlnumAccepts(t[1..]);
        } else {
          RejectedStays(t[1..]);
        }
      } else {
        RejectedStays(t);
      }
    }
  }

  /** The hand-made matcher accepts exactly the well-formed names. */
  lemma DeploymentPatternExactly(name: string)
    ensures MatchesDeploymentPattern(name) <==> WellFormedDeploymentName(name)
  {
    if name != [] {
      var t := name[1..];
      assert name == [name[0]] + t;
      if IsAlnum(name[0]) {
        AfterAlnumAccepts(t);
        ContinuationCons(name[0], t);
      } else {
        RejectedStays(t);
      }
    }
  }

  /** The pattern takes the Azure model names. */
  lemma DeploymentPatternAcceptsAzureModel()
    ensures MatchesDeploymentPattern("gpt-35-turbo")
  {
    DeploymentPatternExactly("gpt-35-turbo");
  }

  /** The pattern refuses a trailing separator, a doubled one, another
      character and the empty name. */
  lemma DeploymentPatternRejects()
    ensures !MatchesDeploymentPattern("gpt-4-")
    ensures !MatchesDeploymentPattern("a__b")
    ensures !MatchesDeploymentPattern("gpt.4")
    ensures !MatchesDeploymentPattern("")
  {
    DeploymentPatternExactly("gpt-4-");
    DeploymentPatternExactly("a__b");
    DeploymentPatternExactly("gpt.4");
    assert "gpt-4-"[5] == '-';
    assert "a__b"[1] == '_' && "a__b"[2] == '_';
    assert "gpt.4"[3] == '.';
  }

  /** The two backends the front end talks to. */
  datatype Backend = OpenAI | Azure

  /** The backend in use: OpenAI when no Azure endpoint is set or it is
      empty, Azure otherwise. Used both to build the clients and to pick the
      dispatch branch. */
  function BackendOf(azureEndpoint: Option<string>): Backend
  {
    if azureEndpoint == None || azureEndpoint == Some("") then OpenAI else Azure
  }

  /** `isGptTurbo`. */
  predicate IsGptTurbo(name: string)
  {
    name == "gpt-3.5-turbo-0301" || name == "gpt-3.5-turbo"
  }

  /** `isGptTurbo35`: the Azure spelling of the same models. */
  predicate IsGptTurbo35(name: string)
  {
    name == "gpt-35-turbo-0301" || name == "gpt-35-turbo"
  }

  /** `isGpt4`. */
  predicate IsGpt4(name: string)
  {
    name == "gpt-4-0314" || name == "gpt-4-32k-0314"
  }

  /** The branch condition of `completion`: the OpenAI branch tests
      `isGptTurbo`, the Azure branch `isGptTurbo35`, both `isGpt4`. */
  predicate IsChatModel(backend: Backend, name: string)
  {
    match backend
    case OpenAI => IsGptTurbo(name) || IsGpt4(name)
    case Azure => IsGptTurbo35(name) || IsGpt4(name)
  }

  /** The chat-capable model names of each backend, as a table. */
  function ChatModels(backend: Backend): set<string>
  {
    match backend
    case OpenAI => {"gpt-3.5-turbo-0301", "gpt-3.5-turbo", "gpt-4-0314", "gpt-4-32k-0314"}
    case Azure => {"gpt-35-turbo-0301", "gpt-35-turbo", "gpt-4-0314", "gpt-4-32k-0314"}
  }

  /** The classifiers are exact matches against the table. */
  lemma ChatModelsExactly(backend: Backend, name: string)
    ensures IsChatModel(backend, name) <==> name in ChatModels(backend)
  {
  }

  /** A name that merely contains a chat model's name is not one, and each
      backend classifies only its own spelling of GPT-3.5 Turbo. */
  lemma ClassifiersAreExact()
    ensures !IsChatModel(OpenAI, "gpt-4") && !IsChatModel(Azure, "gpt-4")
    ensures !IsChatModel(OpenAI, "my-gpt-4-0314")
    ensures IsChatModel(OpenAI, "gpt-3.5-turbo") && !IsChatModel(Azure, "gpt-3.5-turbo")
    ensures IsChatModel(Azure, "gpt-35-turbo") && !IsChatModel(OpenAI, "gpt-35-turbo")
  {
    ChatModelsExactly(OpenAI, "gpt-4");
    ChatModelsExactly(Azure, "gpt-4");
    ChatModelsExactly(OpenAI, "my-gpt-4-0314");
    ChatModelsExactly(Azure, "gpt-3.5-turbo");
    ChatModelsExactly(OpenAI, "gpt-35-turbo");
  }

  /** The four backend calls of `oaiClients`. */
  datatype Call = OpenAIGptChatCompletion | OpenAIGptCompletion | AzureChatGptCompletion | AzureGptCompletion

  predicate IsChatCall(call: Call)
  {
    call == OpenAIGptChatCompletion || call == AzureChatGptCompletion
  }

  function BackendOfCall(call: Call): Backend
  {
    match call
    case OpenAIGptChatCompletion => OpenAI
    case OpenAIGptCompletion => OpenAI
    case AzureChatGptCompletion => Azure
    case AzureGptCompletion => Azure
  }

  /** The call the classification calls for: the chat call for a chat
      model, the completion call otherwise, on the backend in use. */
  function RoutedCall(backend: Backend, name: string): (call: Call)
    ensures BackendOfCall(call) == backend
    ensures IsChatCall(call) <==> IsChatModel(backend, name)
  {
    match backend
    case OpenAI => if IsChatModel(backend, name) then OpenAIGptChatCompletion else OpenAIGptCompletion
    case Azure => if IsChatModel(backend, name) then AzureChatGptCompletion else AzureGptCompletion
  }

  /** The call `completion` makes: in both branches of each backend the
      chat call. */
  function DispatchedCall(backend: Backend, name: string): Call
  {
    match backend
    case OpenAI => if IsChatModel(backend, name) then OpenAIGptChatCompletion else OpenAIGptChatCompletion
    case Azure => if IsChatModel(backend, name) then AzureChatGptCompletion else AzureChatGptCompletion
  }

  /** Classification does not change the call made: it is the chat call of
      the backend in use, and it agrees with the routed call exactly for chat
      models. */
  lemma DispatchIgnoresClassification(backend: Backend, name: string)
    ensures IsChatCall(DispatchedCall(backend, name))
    ensures BackendOfCall(DispatchedCall(backend, name)) == backend
    ensures DispatchedCall(backend, name) == RoutedCall(backend, name) <==> IsChatModel(backend, name)
  {
  }

  /** The context `completion` wraps a backend error in, one per branch. */
  function ErrorContext(backend: Backend, chat: bool): string
  {
    match backend
    case OpenAI => if chat then "error openai GptChat completion:" else "error openai Gpt completion: "
    case Azure => if chat then "error azure GptChat completion : " else "error azure Gpt completion: "
  }

  /** The history as written by the prompt loop: each entry followed by a
      newline, in order. */
  function JoinLines(prompts: seq<string>): string
    decreases |prompts|
  {
    if prompts == [] then ""
    else JoinLines(prompts[..|prompts| - 1]) + prompts[|prompts| - 1] + "\n"
  }

  lemma {:induction false} JoinLinesAppend(a: seq<string>, b: seq<string>)
    ensures JoinLines(a + b) == JoinLines(a) + JoinLines(b)
    decreases |b|
  {
    if b == [] {
      assert a + b == a;
    } else {
      var b' := b[..|b| - 1];
      assert (a + b)[..|a + b| - 1] == a + b';
      JoinLinesAppend(a, b');
    }
  }

  /** Reading the joined history from the front: the first entry and its
      newline, then the rest. */
  lemma JoinLinesCons(p: string, ps: seq<string>)
    ensures JoinLines([p] + ps) == p + "\n" + JoinLines(ps)
  {
    JoinLinesAppend([p], ps);
    assert [p][..0] == [];
  }

  /** Entry `i` of the history, with its newline, sits right after the
      entries before it. */
  lemma HistoryEntryInPlace(ps: seq<string>, i: int)
    requires 0 <= i < |ps|
    ensures var start := |JoinLines(ps[..i])|;
      |JoinLines(ps)| >= start + |ps[i]| + 1
      && JoinLines(ps)[start..start + |ps[i]| + 1] == ps[i] + "\n"
  {
    assert ps == ps[..i] + [ps[i]] + ps[i + 1..];
    JoinLinesAppend(ps[..i] + [ps[i]], ps[i + 1..]);
    JoinLinesAppend(ps[..i], [ps[i]]);
    JoinLinesCons(ps[i], []);
  }

  /** The prompt `completion` sends: the directive `subCommand`, then every
      history entry on a line of its own. */
  function ComposePrompt(subCommand: string, prompts: seq<string>): string
  {
    subCommand + JoinLines(prompts)
  }

  /** A backend call as `completion` makes it. */
  datatype Invocation = Invocation(call: Call, prompt: string, maxTokens: Option<int>, temperature: real)

  /** The OpenAI client of the external go-gpt3 library, built from the key. */
  datatype OpenAIClient = OpenAIClient(apiKey: string)

  /** `oaiClients`: the client of the backend in use; the other is unset. */
  datatype OAIClients = OAIClients(azureClient: Gpt3.Client?, openAIClient: Option<OpenAIClient>)

  const DeploymentNameMessage: string :=
    "azure openai deployment can only include alphanumeric characters, '_,-', and can't end with '_' or '-'"

  /** `newOAIClients`: an OpenAI client when no Azure endpoint is set, with no
      check of the deployment name; otherwise the deployment name must match
      the pattern before an Azure client with the default settings is
      built. */
  method NewOAIClients(azureEndpoint: Option<string>, apiKey: string, deploymentName: string)
    returns (r: Result<OAIClients, Error>)
    ensures BackendOf(azureEndpoint) == OpenAI ==> r == Success(OAIClients(null, Some(OpenAIClient(apiKey))))
    ensures BackendOf(azureEndpoint) == Azure && !WellFormedDeploymentName(deploymentName) ==>
      r == Failure(Error(DeploymentNameMessage))
    ensures BackendOf(azureEndpoint) == Azure && WellFormedDeploymentName(deploymentName) ==>
      && r.Success? && r.value.openAIClient == None
      && var c := r.value.azureClient;
      && c != null && fresh(c)
      && c.endpoint == azureEndpoint.value && c.apiKey == apiKey && c.deploymentName == deploymentName
      && c.apiVersion == Gpt3.DefaultAPIVersion && c.userAgent == Gpt3.DefaultUserAgent
      && c.httpClient.timeout == Gpt3.DefaultTimeoutSeconds * Gpt3.Second
  {
    if BackendOf(azureEndpoint) == OpenAI {
      return Success(OAIClients(null, Some(OpenAIClient(apiKey))));
    }
    DeploymentPatternExactly(deploymentName);
    if !MatchesDeploymentPattern(deploymentName) {
      return Failure(Error(DeploymentNameMessage));
    }
    var azureClient, err, defaultHttpClient := Gpt3.NewClient(azureEndpoint.value, apiKey, deploymentName, []);
    // No option is passed, so `NewClient` cannot fail and the
    // "error create Azure client: " branch is never taken.
    assert err == None;
    return Success(OAIClients(azureClient, None));
  }

  /** `completion`. The token ceiling comes from `calculateMaxTokens`, whose
      failure returns before anything is sent; the prompt is the directive
      followed by the history, one entry per line; the call is the one of
      `DispatchedCall`, and its error is wrapped in the context of the
      branch. `invoked` is the call made, if any. */
  method Completion(azureEndpoint: Option<string>, prompts: seq<string>, deploymentName: string, subCommand: string,
                    temperature: real,
                    calculateMaxTokens: (seq<string>, string) -> Result<Option<int>, Error>,
                    reply: Invocation -> Result<string, Error>)
    returns (r: Result<string, Error>, invoked: Option<Invocation>)
    ensures var budget := calculateMaxTokens(prompts, deploymentName);
      budget.Failure? ==> invoked == None && r == Failure(Wrapped("error calculating max tokens:", budget.error))
    ensures var budget := calculateMaxTokens(prompts, deploymentName);
      budget.Success? ==>
        var backend := BackendOf(azureEndpoint);
        var call := Invocation(DispatchedCall(backend, deploymentName), ComposePrompt(subCommand, prompts), budget.value, temperature);
        && invoked == Some(call)
        && r == match reply(call)
                case Success(text) => Success(text)
                case Failure(e) => Failure(Wrapped(ErrorContext(backend, IsChatModel(backend, deploymentName)), e))
  {
    var maxTokens := calculateMaxTokens(prompts, deploymentName);
    if maxTokens.Failure? {
      return Failure(Wrapped("error calculating max tokens:", maxTokens.error)), None;
    }
    var prompt := subCommand;
    for i := 0 to |prompts|
      invariant prompt == subCommand + JoinLines(prompts[..i])
    {
      assert prompts[..i + 1][..i] == prompts[..i];
      prompt := prompt + prompts[i] + "\n";
    }
    assert prompts[..|prompts|] == prompts;
    var backend := BackendOf(azureEndpoint);
    var chat := IsChatModel(backend, deploymentName);
    var call := Invocation(DispatchedCall(backend, deploymentName), prompt, maxTokens.value, temperature);
    invoked := Some(call);
    var resp := reply(call);
    if resp.Failure? {
      return Failure(Wrapped(ErrorContext(backend, chat), resp.error)), invoked;
    }
    r := Success(resp.value);
  }
}
