/** Provider selection, request shaping, response extraction and the
    two-attempt failover of the AI reply service. The network call is an
    abstract oracle `post`, and the process environment is an `Env` value. */
module AiService {
  import opened Wrappers

  // ---------------------------------------------------------------------------
  // Configuration and the provider table
  // ---------------------------------------------------------------------------

  /** The three registered providers. */
  datatype ProviderKey = Jules | OpenAI | Ollama

  /** The environment variables the service reads; `None` is an unset variable. */
  datatype Env = Env(
    julesApiKey: Option<string>,
    openaiApiKey: Option<string>,
    ollamaApiUrl: Option<string>,
    ollamaModel: Option<string>)

  /** JavaScript truthiness of a string that may be `undefined` or `null`:
      the empty string is falsy. */
  predicate Truthy(s: Option<string>) {
    s.Some? && s.value != ""
  }

  /** The expression `s || d` on an optional string. */
  function OrElse(s: Option<string>, d: string): (r: string)
    ensures Truthy(s) ==> r == s.value
    ensures !Truthy(s) ==> r == d
  {
    if Truthy(s) then s.value else d
  }

  /** The property name under which a provider is registered. */
  function KeyName(k: ProviderKey): string {
    match k
    case Jules => "jules"
    case OpenAI => "openai"
    case Ollama => "ollama"
  }

  const JulesUrl: string := "https://api.jules.ai/v1/chat/completions"
  const OpenAIUrl: string := "https://api.openai.com/v1/chat/completions"
  const OllamaDefaultUrl: string := "http://localhost:11434/api/chat"

  /** One entry of the provider table. */
  datatype ProviderConfig = ProviderConfig(apiKey: Option<string>, apiUrl: string)

  /** The provider table, built once from the environment. */
  function Providers(env: Env, k: ProviderKey): (c: ProviderConfig)
    ensures k == Jules ==> c == ProviderConfig(env.julesApiKey, JulesUrl)
    ensures k == OpenAI ==> c == ProviderConfig(env.openaiApiKey, OpenAIUrl)
    ensures k == Ollama ==> c.apiKey == None
    ensures k == Ollama && Truthy(env.ollamaApiUrl) ==> c.apiUrl == env.ollamaApiUrl.value
    ensures k == Ollama && !Truthy(env.ollamaApiUrl) ==> c.apiUrl == OllamaDefaultUrl
  {
    match k
    case Jules => ProviderConfig(env.julesApiKey, JulesUrl)
    case OpenAI => ProviderConfig(env.openaiApiKey, OpenAIUrl)
    case Ollama => ProviderConfig(None, OrElse(env.ollamaApiUrl, OllamaDefaultUrl))
  }

  // ---------------------------------------------------------------------------
  // Primary and fallback selection
  // ---------------------------------------------------------------------------

  /** The names every plain JavaScript object inherits from `Object.prototype`.
      Indexing the provider table with one of them yields a truthy value that
      is not a provider entry. */
  const ObjectPrototypeKeys: set<string> := {
    "constructor", "__defineGetter__", "__defineSetter__", "hasOwnProperty",
    "__lookupGetter__", "__lookupSetter__", "isPrototypeOf",
    "propertyIsEnumerable", "toString", "valueOf", "__proto__", "toLocaleString"
  }

  /** What `providers[name]` denotes when it is truthy: a registered entry, or
      an inherited member of `Object.prototype`, which has no `apiKey` and no
      `apiUrl`. */
  datatype Selected = Registered(key: ProviderKey) | Inherited(name: string)

  predicate IsKeyName(name: string) {
    name == "jules" || name == "openai" || name == "ollama"
  }

  /** The provider argument after its default `'jules'` is applied. */
  function RequestedName(provider: Option<string>): string {
    provider.GetOr("jules")
  }

  /** `providers[name]`, with `None` for `undefined`. */
  function Lookup(name: string): (r: Option<Selected>)
    ensures r.Some? <==> IsKeyName(name) || name in ObjectPrototypeKeys
    ensures forall k :: name == KeyName(k) ==> r == Some(Registered(k))
  {
    if name == "jules" then Some(Registered(Jules))
    else if name == "openai" then Some(Registered(OpenAI))
    else if name == "ollama" then Some(Registered(Ollama))
    else if name in ObjectPrototypeKeys then Some(Inherited(name))
    else None
  }

  /** `providers[provider] || providers.jules`: the first provider tried. */
  function Primary(provider: Option<string>): (r: Selected)
    ensures provider.None? ==> r == Registered(Jules)
    ensures forall k :: provider == Some(KeyName(k)) ==> r == Registered(k)
    ensures provider.Some? && provider.value in ObjectPrototypeKeys ==> r == Inherited(provider.value)
    ensures provider.Some? && !IsKeyName(provider.value) && provider.value !in ObjectPrototypeKeys
            ==> r == Registered(Jules)
  {
    match Lookup(RequestedName(provider))
    case Some(s) => s
    case None => Registered(Jules)
  }

  /** `provider === 'jules' ? providers.openai : providers.jules`. */
  function Fallback(provider: Option<string>): (r: ProviderKey)
    ensures r == OpenAI <==> provider.None? || provider == Some("jules")
    ensures r == Jules <==> !(provider.None? || provider == Some("jules"))
  {
    if RequestedName(provider) == "jules" then OpenAI else Jules
  }

  // ---------------------------------------------------------------------------
  // Request shaping
  // ---------------------------------------------------------------------------

  /** The JSON values that occur in request bodies. */
  datatype Json =
    | JString(s: string)
    | JBool(b: bool)
    | JArray(items: seq<Json>)
    | JObject(fields: map<string, Json>)

  /** `[{ role: 'user', content: message }]`. */
  function UserMessages(message: string): Json {
    JArray([JObject(map["role" := JString("user"), "content" := JString(message)])])
  }

  /** The request headers for a provider whose key is `apiKey`. */
  function Headers(apiKey: Option<string>): (h: map<string, string>)
    ensures "Content-Type" in h && h["Content-Type"] == "application/json"
    ensures "Authorization" in h <==> Truthy(apiKey)
    ensures Truthy(apiKey) ==> h["Authorization"] == "Bearer " + apiKey.value
    ensures h.Keys <= {"Content-Type", "Authorization"}
  {
    var base := map["Content-Type" := "application/json"];
    if Truthy(apiKey) then base["Authorization" := "Bearer " + apiKey.value] else base
  }

  /** The headers as the service builds them: a fixed content type, then an
      `Authorization` entry added in place when a key is set. */
  method BuildHeaders(apiKey: Option<string>) returns (headers: map<string, string>)
    ensures headers == Headers(apiKey)
  {
    headers := map["Content-Type" := "application/json"];
    if Truthy(apiKey) {
      headers := headers["Authorization" := "Bearer " + apiKey.value];
    }
  }

  /** The model name sent to a provider. */
  function ModelName(env: Env, k: ProviderKey): string {
    match k
    case Ollama => OrElse(env.ollamaModel, "llama3")
    case OpenAI => "gpt-4o"
    case Jules => "jules-1.5-pro"
  }

  /** The request body sent to provider `k`: Ollama gets a single prompt with
      streaming switched off, the chat-completion providers a one-message
      conversation. */
  function RequestBody(env: Env, k: ProviderKey, message: string): (b: map<string, Json>)
    ensures "model" in b && b["model"] == JString(ModelName(env, k))
    ensures k == Ollama ==> b.Keys == {"model", "prompt", "stream"}
                            && b["prompt"] == JString(message) && b["stream"] == JBool(false)
    ensures k != Ollama ==> b.Keys == {"model", "messages"} && b["messages"] == UserMessages(message)
  {
    if k == Ollama then
      map["model" := JString(ModelName(env, k)), "prompt" := JString(message), "stream" := JBool(false)]
    else
      map["model" := JString(ModelName(env, k)), "messages" := UserMessages(message)]
  }

  /** The body as the service builds it: a default chat body, then adjusted
      in place for the chosen provider. */
  method BuildBody(env: Env, k: ProviderKey, message: string) returns (body: map<string, Json>)
    ensures body == RequestBody(env, k, message)
  {
    body := map["model" := JString("default-model"), "messages" := UserMessages(message)];
    if k == Ollama {
      body := body["model" := JString(OrElse(env.ollamaModel, "llama3"))];
      body := body - {"messages"};
      body := body["prompt" := JString(message)];
      body := body["stream" := JBool(false)];
    } else if k == OpenAI {
      body := body["model" := JString("gpt-4o")];
    } else if k == Jules {
      body := body["model" := JString("jules-1.5-pro")];
    }
  }

  // ---------------------------------------------------------------------------
  // Responses and extraction
  // ---------------------------------------------------------------------------

  /** `{ content }` of a reply message; `content` may be absent. */
  datatype Message = Message(content: Option<string>)
  /** One element of `choices`; its `message` may be absent. */
  datatype Choice = Choice(message: Option<Message>)
  /** The parts of a response body the service reads. */
  datatype Payload = Payload(message: Option<Message>, choices: Option<seq<Choice>>)

  /** What the network call yields: a rejected promise, or the response data. */
  datatype Response = Fail | Data(payload: Payload)

  /** A reply as returned to the caller; `None` is `undefined`, returned when
      the message object exists but has no `content`. */
  type Reply = Option<string>

  /** Why one provider call failed. */
  datatype CallError =
    | NotConfigured(apiUrl: string)   // missing credential, raised before any request
    | NetworkError                    // the POST was rejected
    | ExtractionError                 // reading the reply path hit `undefined`

  /** `data.message.content` for Ollama, `data.choices[0].message.content`
      otherwise; a property read on `undefined` along the way throws. */
  function Extract(k: ProviderKey, p: Payload): (r: Result<Reply, CallError>)
    ensures r.Failure? <==> ReplyMessage(k, p).None?
    ensures r.Failure? ==> r.error == ExtractionError
    ensures r.Success? ==> r.value == ReplyMessage(k, p).value.content
  {
    if k == Ollama then
      match p.message
      case None => Failure(ExtractionError)
      case Some(m) => Success(m.content)
    else
      match p.choices
      case None => Failure(ExtractionError)
      case Some(cs) =>
        if |cs| == 0 then Failure(ExtractionError)
        else match cs[0].message
          case None => Failure(ExtractionError)
          case Some(m) => Success(m.content)
  }

  /** The message object on the reply path of provider `k`, if present. */
  function ReplyMessage(k: ProviderKey, p: Payload): Option<Message> {
    if k == Ollama then p.message
    else if p.choices.Some? && |p.choices.value| > 0 then p.choices.value[0].message
    else None
  }

  /** Ollama's reply never depends on `choices`, the others' never on `message`. */
  lemma ExtractIgnoresOtherPath(k: ProviderKey, p: Payload, q: Payload)
    requires k == Ollama ==> p.message == q.message
    requires k != Ollama ==> p.choices == q.choices
    ensures Extract(k, p) == Extract(k, q)
  {
  }

  // ---------------------------------------------------------------------------
  // One provider call
  // ---------------------------------------------------------------------------

  /** A POST request: endpoint, headers and JSON body. */
  datatype Request = Request(url: string, headers: map<string, string>, body: map<string, Json>)

  /** One call of a provider: the request it sent, if any, and its outcome. */
  datatype Attempt = Attempt(sent: Option<Request>, result: Result<Reply, CallError>)

  /** Whether the credential check lets a call through. */
  predicate PassesCredentialCheck(env: Env, s: Selected)
    ensures s == Registered(Ollama) ==> PassesCredentialCheck(env, s)
    ensures s.Inherited? ==> !PassesCredentialCheck(env, s)
    ensures s == Registered(Jules) ==> (PassesCredentialCheck(env, s) <==> Truthy(env.julesApiKey))
    ensures s == Registered(OpenAI) ==> (PassesCredentialCheck(env, s) <==> Truthy(env.openaiApiKey))
  {
    s.Registered? && (s.key == Ollama || Truthy(Providers(env, s.key).apiKey))
  }

  /** The request a provider call sends once the credential check passes. */
  function RequestFor(env: Env, k: ProviderKey, message: string): Request {
    Request(Providers(env, k).apiUrl, Headers(Providers(env, k).apiKey), RequestBody(env, k, message))
  }

  /** The network: `post(n, req)` is how the POST of attempt `n` (0 for the
      primary, 1 for the fallback) is answered. Each attempt's POST is a call
      of its own, so the same request may be answered differently each time. */
  type Network = (nat, Request) -> Response

  /** Calls the provider `s` as attempt number `n`. */
  function CallAIProvider(env: Env, s: Selected, message: string, post: Network, n: nat): (a: Attempt)
    ensures a.sent.Some? <==> PassesCredentialCheck(env, s)
    ensures a.result.Success? ==> a.sent.Some? && post(n, a.sent.value).Data?
  {
    match s
    case Inherited(_) =>
      Attempt(None, Failure(NotConfigured("undefined")))
    case Registered(k) =>
      var config := Providers(env, k);
      if !Truthy(config.apiKey) && k != Ollama then
        Attempt(None, Failure(NotConfigured(config.apiUrl)))
      else
        var req := RequestFor(env, k, message);
        match post(n, req)
        case Fail => Attempt(Some(req), Failure(NetworkError))
        case Data(p) => Attempt(Some(req), Extract(k, p))
  }

  /** A call that passes the credential check sends exactly one request, to
      the provider's URL with its headers and body, and its outcome is the
      network failure or the extraction of what came back. A call that does
      not pass fails with a configuration error and sends nothing. */
  lemma CallSendsOnlyWhenConfigured(env: Env, s: Selected, message: string, post: Network, n: nat)
    ensures var a := CallAIProvider(env, s, message, post, n);
            if PassesCredentialCheck(env, s) then
              && a.sent == Some(RequestFor(env, s.key, message))
              && a.sent.value.url == Providers(env, s.key).apiUrl
              && a.result == (match post(n, a.sent.value)
                              case Fail => Failure(NetworkError)
                              case Data(p) => Extract(s.key, p))
            else
              a.sent.None? && a.result.Failure? && a.result.error.NotConfigured?
  {
  }

  /** The sent headers carry a Bearer token exactly when the provider has a key. */
  lemma AuthorizationOnlyWithKey(env: Env, k: ProviderKey, message: string)
    ensures var h := RequestFor(env, k, message).headers;
            && h["Content-Type"] == "application/json"
            && ("Authorization" in h <==> Truthy(Providers(env, k).apiKey))
            && (k == Ollama ==> "Authorization" !in h)
  {
  }

  // ---------------------------------------------------------------------------
  // The reply with failover
  // ---------------------------------------------------------------------------

  const AllUnavailable: string := "All AI providers are currently unavailable."

  /** The calls made for one reply, in order, and what the caller receives. */
  datatype Dispatch = Dispatch(attempts: seq<Attempt>, result: Result<Reply, string>)

  /** The requests actually sent over the network, in order. */
  function Sent(attempts: seq<Attempt>): (r: seq<Request>)
    ensures |r| <= |attempts|
    ensures forall q :: q in r <==> exists i :: 0 <= i < |attempts| && attempts[i].sent == Some(q)
  {
    if attempts == [] then []
    else (if attempts[0].sent.Some? then [attempts[0].sent.value] else []) + Sent(attempts[1..])
  }

  /** Tries the primary provider, and the fallback only if the primary throws;
      if both throw, a single aggregate error is raised. */
  function GetAIReply(env: Env, message: string, provider: Option<string>, post: Network): (d: Dispatch)
    ensures 1 <= |d.attempts| <= 2
    ensures d.attempts[0] == CallAIProvider(env, Primary(provider), message, post, 0)
    ensures |d.attempts| == 2 <==> d.attempts[0].result.Failure?
    ensures |d.attempts| == 2 ==>
              d.attempts[1] == CallAIProvider(env, Registered(Fallback(provider)), message, post, 1)
    ensures d.result.Success? <==> d.attempts[|d.attempts| - 1].result.Success?
    ensures d.result.Success? ==> d.result.value == d.attempts[|d.attempts| - 1].result.value
    ensures d.result.Failure? ==> d.result.error == AllUnavailable
  {
    var first := CallAIProvider(env, Primary(provider), message, post, 0);
    match first.result
    case Success(reply) => Dispatch([first], Success(reply))
    case Failure(_) =>
      var second := CallAIProvider(env, Registered(Fallback(provider)), message, post, 1);
      match second.result
      case Success(reply) => Dispatch([first, second], Success(reply))
      case Failure(_) => Dispatch([first, second], Failure(AllUnavailable))
  }

  /** At most two requests reach the network for one reply. */
  lemma AtMostTwoRequests(env: Env, message: string, provider: Option<string>, post: Network)
    ensures |Sent(GetAIReply(env, message, provider, post).attempts)| <= 2
  {
  }

  /** A successful primary call is the answer and the fallback is never called. */
  lemma PrimarySuccessIsFinal(env: Env, message: string, provider: Option<string>, post: Network)
    requires CallAIProvider(env, Primary(provider), message, post, 0).result.Success?
    ensures var d := GetAIReply(env, message, provider, post);
            && d.attempts == [CallAIProvider(env, Primary(provider), message, post, 0)]
            && d.result == Success(CallAIProvider(env, Primary(provider), message, post, 0).result.value)
  {
  }

  /** When the primary fails, the answer is the fallback's reply, or the
      aggregate error when the fallback fails too. */
  lemma FallbackAfterFailure(env: Env, message: string, provider: Option<string>, post: Network)
    requires CallAIProvider(env, Primary(provider), message, post, 0).result.Failure?
    ensures var d := GetAIReply(env, message, provider, post);
            var second := CallAIProvider(env, Registered(Fallback(provider)), message, post, 1);
            && |d.attempts| == 2
            && d.attempts[1] == second
            && d.result == (if second.result.Success? then Success(second.result.value)
                            else Failure(AllUnavailable))
  {
  }

  /** A name that is neither registered nor inherited selects Jules for both
      attempts, so with a working key both requests go to the Jules endpoint,
      and when both are rejected the aggregate error results. */
  lemma UnknownKeyTriesJulesTwice(env: Env, message: string, name: string, post: Network)
    requires !IsKeyName(name) && name !in ObjectPrototypeKeys
    requires Truthy(env.julesApiKey)
    requires post(0, RequestFor(env, Jules, message)) == Fail
    requires post(1, RequestFor(env, Jules, message)) == Fail
    ensures var d := GetAIReply(env, message, Some(name), post);
            && Sent(d.attempts) == [RequestFor(env, Jules, message), RequestFor(env, Jules, message)]
            && d.result == Failure(AllUnavailable)
  {
  }

  /** For an unknown name, a first Jules request that is rejected and a second,
      identical one that is answered: the caller gets the second answer's reply. */
  lemma UnknownKeySecondJulesAnswerWins(env: Env, message: string, name: string, post: Network, p: Payload)
    requires !IsKeyName(name) && name !in ObjectPrototypeKeys
    requires Truthy(env.julesApiKey)
    requires post(0, RequestFor(env, Jules, message)) == Fail
    requires post(1, RequestFor(env, Jules, message)) == Data(p)
    requires Extract(Jules, p).Success?
    ensures var d := GetAIReply(env, message, Some(name), post);
            && Sent(d.attempts) == [RequestFor(env, Jules, message), RequestFor(env, Jules, message)]
            && d.result == Success(Extract(Jules, p).value)
  {
  }

  /** A name inherited from `Object.prototype` makes the first attempt fail
      without any request; only the Jules fallback can reach the network. */
  lemma InheritedKeyOnlyFallsBack(env: Env, message: string, name: string, post: Network)
    requires name in ObjectPrototypeKeys
    ensures var d := GetAIReply(env, message, Some(name), post);
            && |d.attempts| == 2
            && d.attempts[0] == Attempt(None, Failure(NotConfigured("undefined")))
            && Sent(d.attempts) == Sent([CallAIProvider(env, Registered(Jules), message, post, 1)])
  {
  }

  /** With neither the Jules nor the OpenAI key set, asking for Jules (or
      nothing) sends no request at all and raises the aggregate error. */
  lemma NoCredentialsNoNetwork(env: Env, message: string, provider: Option<string>, post: Network)
    requires provider.None? || provider == Some("jules")
    requires !Truthy(env.julesApiKey) && !Truthy(env.openaiApiKey)
    ensures var d := GetAIReply(env, message, provider, post);
            Sent(d.attempts) == [] && d.result == Failure(AllUnavailable)
  {
  }

  /** Example: Jules is asked for but unconfigured, OpenAI answers "hello";
      the caller gets "hello" and exactly one request, to OpenAI, was sent. */
  lemma UnconfiguredJulesFallsBackToOpenAI(env: Env, message: string, post: Network)
    requires !Truthy(env.julesApiKey) && Truthy(env.openaiApiKey)
    requires post(1, RequestFor(env, OpenAI, message))
             == Data(Payload(None, Some([Choice(Some(Message(Some("hello"))))])))
    ensures var d := GetAIReply(env, message, Some("jules"), post);
            && d.result == Success(Some("hello"))
            && Sent(d.attempts) == [RequestFor(env, OpenAI, message)]
  {
  }
}
