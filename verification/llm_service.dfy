/** The OpenAI-compatible chat-completion client of services/llm/llm.go: reading the
    configuration, normalising the endpoint URL, the single request/response exchange of
    callAPI, and the three operations built on it (OrganizeNodes, GenerateRules,
    TestConnection).

    Everything outside this file is a parameter: the settings store is a map from
    setting key to value, and JSON encoding, request construction and the HTTP round
    trip are the functions of a `Backend`. */
module LlmService {
  import opened Results
  import opened GoStrings

  // ----- Data model -----

  datatype ChatMessage = ChatMessage(role: string, content: string)

  /** The request body. `temperature` is the float64 0.7 the client always sends;
      `maxTokens` is never set, so it stays 0 and `omitempty` drops it from the JSON. */
  datatype ChatRequest = ChatRequest(model: string, messages: seq<ChatMessage>, temperature: real, maxTokens: int)

  datatype ChatChoice = ChatChoice(index: int, message: ChatMessage)

  datatype ChatResponse = ChatResponse(id: string, choices: seq<ChatChoice>)

  datatype LLMConfig = LLMConfig(apiUrl: string, apiKey: string, model: string)

  /** The secret-free summary of a proxy node that is shown to the model. */
  datatype NodeInfo = NodeInfo(id: int, name: string, protocol: string, country: string, group: string)

  datatype Header = Header(name: string, value: string)

  datatype HttpRequest = HttpRequest(verb: string, url: string, headers: seq<Header>, body: string)

  /** What `client.Do` followed by `io.ReadAll(resp.Body)` yields: a transport failure
      (a connection error, or the 120 s timeout before the response arrives), a failure
      reading the body (the timeout can also strike here), or a status code with the
      complete body. */
  datatype Exchange =
    | TransportFailed(detail: string)
    | ReadFailed(detail: string)
    | Received(status: int, body: string)

  /** The foreign collaborators of the client, each given as a function of its inputs:
      `encodeRequest` and `encodeNodes` are json.Marshal, `newRequest` is the error
      http.NewRequest("POST", url, ...) reports for a URL (None when it builds one),
      `roundTrip` is the HTTP exchange, `decodeResponse` is json.Unmarshal into a
      ChatResponse. */
  datatype Backend = Backend(
    encodeRequest: ChatRequest -> Result<string, string>,
    encodeNodes: seq<NodeInfo> -> Result<string, string>,
    newRequest: string -> Option<string>,
    roundTrip: HttpRequest -> Exchange,
    decodeResponse: string -> Result<ChatResponse, string>)

  /** Every error the client returns; `detail` is the text of the underlying Go error. */
  datatype LlmError =
    | ApiUrlMissing
    | ApiKeyMissing
    | EncodeRequestFailed(detail: string)
    | CreateRequestFailed(detail: string)
    | RequestFailed(detail: string)
    | ReadResponseFailed(detail: string)
    | UpstreamStatus(status: int, body: string)
    | ParseResponseFailed(detail: string)
    | NoChoices
    | EncodeNodesFailed(detail: string)
    | EmptyResult

  // ----- Constants -----

  const SettingApiUrl := "llm_api_url"
  const SettingApiKey := "llm_api_key"
  const SettingModel := "llm_model"
  const DefaultModel := "gpt-3.5-turbo"

  const ChatCompletionsPath := "/chat/completions"
  const V1Suffix := "/v1"
  const V1ChatCompletionsPath := V1Suffix + ChatCompletionsPath  // "/v1/chat/completions"

  const Temperature: real := 0.7
  const StatusOK := 200
  const BearerScheme := "Bearer "

  const RoleSystem := "system"
  const RoleUser := "user"

  // ----- Error texts, as the errors' Error() method renders them -----

  const ApiUrlMissingText := "LLM API URL 未配置"
  const ApiKeyMissingText := "LLM API Key 未配置"
  const EncodeRequestPrefix := "序列化请求失败: "
  const CreateRequestPrefix := "创建请求失败: "
  const RequestFailedPrefix := "请求LLM API失败: "
  const ReadResponsePrefix := "读取响应失败: "
  const UpstreamStatusPrefix := "LLM API返回错误 (HTTP "
  const UpstreamStatusSeparator := "): "
  const ParseResponsePrefix := "解析响应失败: "
  const NoChoicesText := "LLM API未返回有效结果"
  const EncodeNodesPrefix := "序列化节点信息失败: "
  const EmptyResultText := "LLM API返回空结果"

  /** The text `Error()` gives for an error: a fixed text for the four errors without a
      detail; otherwise a fixed prefix followed by the wrapped Go error's text in full, or,
      for a rejected status, the status and the complete response body. */
  function ErrorText(e: LlmError): (t: string)
    ensures |t| > 0
    ensures e.EncodeRequestFailed? || e.CreateRequestFailed? || e.RequestFailed?
         || e.ReadResponseFailed? || e.ParseResponseFailed? || e.EncodeNodesFailed?
         ==> HasSuffix(t, e.detail)
    ensures e.UpstreamStatus? ==> HasPrefix(t, UpstreamStatusPrefix)
                                  && HasSuffix(t, UpstreamStatusSeparator + e.body)
  {
    match e
    case ApiUrlMissing => ApiUrlMissingText
    case ApiKeyMissing => ApiKeyMissingText
    case EncodeRequestFailed(d) => SuffixOfAppend(EncodeRequestPrefix, d); EncodeRequestPrefix + d
    case CreateRequestFailed(d) => SuffixOfAppend(CreateRequestPrefix, d); CreateRequestPrefix + d
    case RequestFailed(d) => SuffixOfAppend(RequestFailedPrefix, d); RequestFailedPrefix + d
    case ReadResponseFailed(d) => SuffixOfAppend(ReadResponsePrefix, d); ReadResponsePrefix + d
    case UpstreamStatus(status, body) =>
      var head := UpstreamStatusPrefix + FormatInt(status);
      SuffixOfAppend(head, UpstreamStatusSeparator + body);
      assert head + (UpstreamStatusSeparator + body) == head + UpstreamStatusSeparator + body;
      UpstreamStatusPrefix + FormatInt(status) + UpstreamStatusSeparator + body
    case ParseResponseFailed(d) => SuffixOfAppend(ParseResponsePrefix, d); ParseResponsePrefix + d
    case NoChoices => NoChoicesText
    case EncodeNodesFailed(d) => SuffixOfAppend(EncodeNodesPrefix, d); EncodeNodesPrefix + d
    case EmptyResult => EmptyResultText
  }

  /** Reads an error back from its text: the inverse of ErrorText (see
      ErrorTextRoundTrip), so no two errors are reported with the same text. */
  function ParseErrorText(t: string): Option<LlmError> {
    if t == ApiUrlMissingText then Some(ApiUrlMissing)
    else if t == ApiKeyMissingText then Some(ApiKeyMissing)
    else if t == NoChoicesText then Some(NoChoices)
    else if t == EmptyResultText then Some(EmptyResult)
    else if HasPrefix(t, EncodeRequestPrefix) then Some(EncodeRequestFailed(t[|EncodeRequestPrefix|..]))
    else if HasPrefix(t, CreateRequestPrefix) then Some(CreateRequestFailed(t[|CreateRequestPrefix|..]))
    else if HasPrefix(t, RequestFailedPrefix) then Some(RequestFailed(t[|RequestFailedPrefix|..]))
    else if HasPrefix(t, ReadResponsePrefix) then Some(ReadResponseFailed(t[|ReadResponsePrefix|..]))
    else if HasPrefix(t, ParseResponsePrefix) then Some(ParseResponseFailed(t[|ParseResponsePrefix|..]))
    else if HasPrefix(t, EncodeNodesPrefix) then Some(EncodeNodesFailed(t[|EncodeNodesPrefix|..]))
    else if HasPrefix(t, UpstreamStatusPrefix) then ParseUpstreamStatus(t[|UpstreamStatusPrefix|..])
    else None
  }

  /** Reads "<status>): <body>", the part of an upstream-status text after its prefix. */
  function ParseUpstreamStatus(t: string): Option<LlmError> {
    var i := IndexOf(t, ')');
    var status := t[..i];
    if i + |UpstreamStatusSeparator| <= |t| && t[i..i + |UpstreamStatusSeparator|] == UpstreamStatusSeparator
       && forall k :: 0 <= k < |status| ==> status[k] == '-' || IsDigit(status[k])
    then Some(UpstreamStatus(ParseInt(status), t[i + |UpstreamStatusSeparator|..]))
    else None
  }

  /** Two strings that differ at a position both have differ, and neither is a
      prefix of the other. */
  lemma DifferAt(p: string, t: string, k: nat)
    requires k < |p| && k < |t| && p[k] != t[k]
    ensures t != p && !HasPrefix(t, p)
  {
  }

  lemma ConstantRoundTrip(e: LlmError)
    requires e.ApiUrlMissing? || e.ApiKeyMissing? || e.NoChoices? || e.EmptyResult?
    ensures ParseErrorText(ErrorText(e)) == Some(e)
  {
    var t := ErrorText(e);
    if e.ApiKeyMissing? {
      DifferAt(ApiUrlMissingText, t, 8);
    } else if e.NoChoices? {
      DifferAt(ApiUrlMissingText, t, 7);
      DifferAt(ApiKeyMissingText, t, 7);
    } else if e.EmptyResult? {
      DifferAt(ApiUrlMissingText, t, 7);
      DifferAt(ApiKeyMissingText, t, 7);
      DifferAt(NoChoicesText, t, 7);
    }
  }

  /** The text of an error with a detail starts with its own prefix, which no constant
      error text and no earlier prefix in ParseErrorText's order shares. */
  lemma DetailRoundTrip(e: LlmError)
    requires e.EncodeRequestFailed? || e.CreateRequestFailed? || e.RequestFailed?
          || e.ReadResponseFailed? || e.ParseResponseFailed? || e.EncodeNodesFailed?
    ensures ParseErrorText(ErrorText(e)) == Some(e)
  {
    var prefix :=
      if e.EncodeRequestFailed? then EncodeRequestPrefix
      else if e.CreateRequestFailed? then CreateRequestPrefix
      else if e.RequestFailed? then RequestFailedPrefix
      else if e.ReadResponseFailed? then ReadResponsePrefix
      else if e.ParseResponseFailed? then ParseResponsePrefix
      else EncodeNodesPrefix;
    var t := ErrorText(e);
    assert t == prefix + e.detail;
    assert t[0] == prefix[0];
    assert t[3] == prefix[3];
    assert t[|prefix|..] == e.detail;
    DifferAt(ApiUrlMissingText, t, 0);
    DifferAt(ApiKeyMissingText, t, 0);
    DifferAt(NoChoicesText, t, 0);
    DifferAt(EmptyResultText, t, 0);
    if !e.EncodeRequestFailed? {
      if e.EncodeNodesFailed? { DifferAt(EncodeRequestPrefix, t, 3); } else { DifferAt(EncodeRequestPrefix, t, 0); }
    }
    if !e.EncodeRequestFailed? && !e.CreateRequestFailed? { DifferAt(CreateRequestPrefix, t, 0); }
    if e.ReadResponseFailed? || e.ParseResponseFailed? || e.EncodeNodesFailed? { DifferAt(RequestFailedPrefix, t, 0); }
    if e.ParseResponseFailed? || e.EncodeNodesFailed? { DifferAt(ReadResponsePrefix, t, 0); }
    if e.EncodeNodesFailed? { DifferAt(ParseResponsePrefix, t, 0); }
  }

  lemma UpstreamRoundTrip(status: int, body: string)
    ensures ParseErrorText(ErrorText(UpstreamStatus(status, body))) == Some(UpstreamStatus(status, body))
  {
    var f := FormatInt(status);
    var rest := f + UpstreamStatusSeparator + body;
    var t := UpstreamStatusPrefix + rest;
    assert ErrorText(UpstreamStatus(status, body)) == t;
    assert t[0] == UpstreamStatusPrefix[0];
    assert |t| > |EmptyResultText| && |t| > |NoChoicesText| && |t| > |ApiUrlMissingText| && |t| > |ApiKeyMissingText|;
    DifferAt(EncodeRequestPrefix, t, 0);
    DifferAt(CreateRequestPrefix, t, 0);
    DifferAt(RequestFailedPrefix, t, 0);
    DifferAt(ReadResponsePrefix, t, 0);
    DifferAt(ParseResponsePrefix, t, 0);
    DifferAt(EncodeNodesPrefix, t, 0);
    assert HasPrefix(t, UpstreamStatusPrefix);
    assert t[|UpstreamStatusPrefix|..] == rest;
    assert rest[|f|] == ')';
    assert IndexOf(rest, ')') == |f|;
    assert rest[..|f|] == f;
    assert rest[|f|..|f| + |UpstreamStatusSeparator|] == UpstreamStatusSeparator;
    assert rest[|f| + |UpstreamStatusSeparator|..] == body;
    ParseIntOfFormatInt(status);
  }

  /** Every error's text reads back to that error. */
  lemma ErrorTextRoundTrip(e: LlmError)
    ensures ParseErrorText(ErrorText(e)) == Some(e)
  {
    match e
    case UpstreamStatus(status, body) => UpstreamRoundTrip(status, body);
    case ApiUrlMissing => ConstantRoundTrip(e);
    case ApiKeyMissing => ConstantRoundTrip(e);
    case NoChoices => ConstantRoundTrip(e);
    case EmptyResult => ConstantRoundTrip(e);
    case _ => DetailRoundTrip(e);
  }

  /** Distinct errors are reported with distinct texts. */
  lemma ErrorTextInjective(e1: LlmError, e2: LlmError)
    requires ErrorText(e1) == ErrorText(e2)
    ensures e1 == e2
  {
    ErrorTextRoundTrip(e1);
    ErrorTextRoundTrip(e2);
  }

  // ----- Configuration -----

  /** models.GetSetting: the stored value, or "" when the key is absent. */
  function Setting(store: map<string, string>, key: string): (v: string)
    ensures key !in store ==> v == ""
    ensures key in store ==> v == store[key]
  {
    if key in store then store[key] else ""
  }

  /** GetConfig: the URL is checked before the key; an empty model falls back to
      gpt-3.5-turbo; URL and key are passed through unchanged. */
  function GetConfig(store: map<string, string>): (r: Result<LLMConfig, LlmError>)
    ensures Setting(store, SettingApiUrl) == "" ==> r == Err(ApiUrlMissing)
    ensures Setting(store, SettingApiUrl) != "" && Setting(store, SettingApiKey) == "" ==> r == Err(ApiKeyMissing)
    ensures r.Ok? <==> Setting(store, SettingApiUrl) != "" && Setting(store, SettingApiKey) != ""
    ensures r.Ok? ==> r.value.apiUrl == Setting(store, SettingApiUrl) && r.value.apiKey == Setting(store, SettingApiKey)
    ensures r.Ok? ==> r.value.model != ""
    ensures r.Ok? && Setting(store, SettingModel) != "" ==> r.value.model == Setting(store, SettingModel)
    ensures r.Ok? && Setting(store, SettingModel) == "" ==> r.value.model == DefaultModel
  {
    var apiUrl := Setting(store, SettingApiUrl);
    var apiKey := Setting(store, SettingApiKey);
    var model := Setting(store, SettingModel);
    if apiUrl == "" then Err(ApiUrlMissing)
    else if apiKey == "" then Err(ApiKeyMissing)
    else Ok(LLMConfig(apiUrl, apiKey, if model == "" then DefaultModel else model))
  }

  // ----- Endpoint normalisation -----

  /** buildEndpointURL. A URL ending in "/v1/" is not treated as ending in "/v1": its
      slash is trimmed and a second "/v1" is appended (see SlashAfterV1). */
  function BuildEndpointURL(apiUrl: string): (r: string)
    ensures HasSuffix(r, ChatCompletionsPath)
    ensures HasSuffix(apiUrl, ChatCompletionsPath) ==> r == apiUrl
    ensures HasSuffix(apiUrl, V1Suffix) ==> r == apiUrl + ChatCompletionsPath
    ensures !HasSuffix(apiUrl, ChatCompletionsPath) && !HasSuffix(apiUrl, V1Suffix) ==>
              r == TrimRight(apiUrl, "/") + V1ChatCompletionsPath
  {
    SuffixesExclusive(apiUrl);
    if HasSuffix(apiUrl, ChatCompletionsPath) then apiUrl
    else if HasSuffix(apiUrl, V1Suffix) then
      SuffixOfAppend(apiUrl, ChatCompletionsPath);
      apiUrl + ChatCompletionsPath
    else
      var base := TrimRight(apiUrl, "/");
      V1PathEndsInChatCompletions();
      SuffixOfLongerAppend(base, V1ChatCompletionsPath, ChatCompletionsPath);
      base + V1ChatCompletionsPath
  }

  /** No URL ends both in "/chat/completions" and in "/v1": their last characters differ. */
  lemma SuffixesExclusive(u: string)
    ensures !(HasSuffix(u, ChatCompletionsPath) && HasSuffix(u, V1Suffix))
  {
    if HasSuffix(u, ChatCompletionsPath) {
      LastOfSuffix(u, ChatCompletionsPath);
    }
    if HasSuffix(u, V1Suffix) {
      LastOfSuffix(u, V1Suffix);
    }
  }

  lemma V1PathEndsInChatCompletions()
    ensures HasSuffix(V1ChatCompletionsPath, ChatCompletionsPath)
  {
    SuffixOfAppend(V1Suffix, ChatCompletionsPath);
    assert V1Suffix + ChatCompletionsPath == V1ChatCompletionsPath;
  }

  /** Normalisation is idempotent: its result already ends in "/chat/completions". */
  lemma EndpointIdempotent(apiUrl: string)
    ensures BuildEndpointURL(BuildEndpointURL(apiUrl)) == BuildEndpointURL(apiUrl)
  {
  }

  /** A URL whose last character is '/' ends neither in "/chat/completions" nor in "/v1". */
  lemma SlashEndIsThirdCase(u: string)
    requires u != [] && u[|u| - 1] == '/'
    ensures !HasSuffix(u, ChatCompletionsPath) && !HasSuffix(u, V1Suffix)
  {
  }

  /** Trailing slashes are ignored when the URL (without them) ends neither in
      "/chat/completions" nor in "/v1". */
  lemma TrailingSlashesIgnored(apiUrl: string, slashes: string)
    requires !HasSuffix(apiUrl, ChatCompletionsPath) && !HasSuffix(apiUrl, V1Suffix)
    requires forall i :: 0 <= i < |slashes| ==> slashes[i] == '/'
    ensures BuildEndpointURL(apiUrl + slashes) == BuildEndpointURL(apiUrl)
  {
    if slashes != [] {
      var u := apiUrl + slashes;
      assert u[|u| - 1] == slashes[|slashes| - 1];
      SlashEndIsThirdCase(u);
      TrimRightAppendCut(apiUrl, "/", slashes);
    } else {
      assert apiUrl + slashes == apiUrl;
    }
  }

  /** A URL that does not end in '/', '1' or 's' is in the third case and keeps all its
      characters: the endpoint is the URL followed by "/v1/chat/completions". */
  lemma PlainBase(apiUrl: string)
    requires apiUrl != [] && apiUrl[|apiUrl| - 1] !in {'/', '1', 's'}
    ensures BuildEndpointURL(apiUrl) == apiUrl + V1ChatCompletionsPath
  {
    assert TrimRight(apiUrl, "/") == apiUrl;
  }

  /** A base URL in the third case without a trailing slash and the same URL followed by
      "/v1" give the same endpoint. */
  lemma BaseAndV1Agree(apiUrl: string)
    requires !HasSuffix(apiUrl, ChatCompletionsPath) && !HasSuffix(apiUrl, V1Suffix)
    requires apiUrl == [] || apiUrl[|apiUrl| - 1] != '/'
    ensures BuildEndpointURL(apiUrl + V1Suffix) == BuildEndpointURL(apiUrl)
  {
    var u := apiUrl + V1Suffix;
    SuffixOfAppend(apiUrl, V1Suffix);
    assert BuildEndpointURL(u) == u + ChatCompletionsPath;
    TrimRightNoop(apiUrl, "/");
    assert BuildEndpointURL(apiUrl) == apiUrl + V1ChatCompletionsPath;
    assert u + ChatCompletionsPath == apiUrl + V1ChatCompletionsPath;
  }

  /** The quirk of the third case: one slash after "/v1" doubles the version segment
      instead of being ignored. */
  lemma SlashAfterV1(apiUrl: string)
    requires HasSuffix(apiUrl, V1Suffix)
    ensures BuildEndpointURL(apiUrl + "/") == apiUrl + V1ChatCompletionsPath
    ensures BuildEndpointURL(apiUrl + "/") != BuildEndpointURL(apiUrl)
  {
    var u := apiUrl + "/";
    assert u[|u| - 1] == '/';
    SlashEndIsThirdCase(u);
    assert apiUrl[|apiUrl| - 1] == apiUrl[|apiUrl| - |V1Suffix|..][|V1Suffix| - 1];
    assert TrimRight(apiUrl, "/") == apiUrl;
    TrimRightAppendCut(apiUrl, "/", "/");
  }

  const OpenAIBase := "https://api.openai.com"

  lemma ExampleBase()
    ensures BuildEndpointURL(OpenAIBase) == OpenAIBase + V1ChatCompletionsPath
  {
    PlainBase(OpenAIBase);
  }

  lemma ExampleV1()
    ensures BuildEndpointURL(OpenAIBase + V1Suffix) == OpenAIBase + V1ChatCompletionsPath
  {
    PlainBase(OpenAIBase);
    BaseAndV1Agree(OpenAIBase);
  }

  lemma ExampleFull()
    ensures BuildEndpointURL(OpenAIBase + V1ChatCompletionsPath) == OpenAIBase + V1ChatCompletionsPath
  {
    ExampleBase();
    EndpointIdempotent(OpenAIBase);
  }

  lemma ExampleV1Slash()
    ensures BuildEndpointURL("https://x" + V1Suffix + "/") == "https://x" + V1Suffix + V1ChatCompletionsPath
  {
    SuffixOfAppend("https://x", V1Suffix);
    SlashAfterV1("https://x" + V1Suffix);
  }

  // ----- callAPI -----

  /** The body callAPI encodes: the configured model, the caller's messages verbatim,
      temperature 0.7 and no token cap. */
  function ChatRequestFor(config: LLMConfig, messages: seq<ChatMessage>): (req: ChatRequest)
    ensures req.model == config.model && req.messages == messages
    ensures req.temperature == Temperature && req.maxTokens == 0
  {
    ChatRequest(config.model, messages, Temperature, 0)
  }

  /** The HTTP request callAPI sends, given the encoded body: a POST to the normalised
      endpoint, with a JSON content type and the configured key as its Bearer credential
      (read back through HeaderValue and BearerToken). */
  function OutgoingRequest(config: LLMConfig, body: string): (req: HttpRequest)
    ensures req.verb == "POST"
    ensures req.url == BuildEndpointURL(config.apiUrl)
    ensures req.body == body
    ensures HeaderValue(req.headers, "Content-Type") == Some("application/json")
    ensures HeaderValue(req.headers, "Authorization").Some?
    ensures BearerToken(HeaderValue(req.headers, "Authorization").value) == Some(config.apiKey)
  {
    var auth := BearerScheme + config.apiKey;
    assert auth[|BearerScheme|..] == config.apiKey;
    HttpRequest("POST", BuildEndpointURL(config.apiUrl),
                [Header("Content-Type", "application/json"), Header("Authorization", auth)],
                body)
  }

  /** Header.Get: the value of the first header with the given name. */
  function HeaderValue(headers: seq<Header>, name: string): Option<string> {
    if headers == [] then None
    else if headers[0].name == name then Some(headers[0].value)
    else HeaderValue(headers[1..], name)
  }

  /** The credential carried by an Authorization value in the Bearer scheme of
      section 2.1 of RFC 6750, or None when the value is in another scheme. */
  function BearerToken(authorization: string): Option<string> {
    if HasPrefix(authorization, BearerScheme) then Some(authorization[|BearerScheme|..]) else None
  }

  /** The decision chain applied to what came back: transport and read failures first,
      then any status other than 200 (with status and body, without decoding), then a
      body that does not decode, then an empty choice list; otherwise the content of the
      first choice, unchanged. */
  function Interpret(ex: Exchange, decode: string -> Result<ChatResponse, string>): (r: Result<string, LlmError>)
    ensures ex.TransportFailed? ==> r == Err(RequestFailed(ex.detail))
    ensures ex.ReadFailed? ==> r == Err(ReadResponseFailed(ex.detail))
    ensures ex.Received? && ex.status != StatusOK ==> r == Err(UpstreamStatus(ex.status, ex.body))
    ensures ex.Received? && ex.status == StatusOK && decode(ex.body).Err? ==>
              r == Err(ParseResponseFailed(decode(ex.body).error))
    ensures ex.Received? && ex.status == StatusOK && decode(ex.body).Ok? && decode(ex.body).value.choices == [] ==>
              r == Err(NoChoices)
    ensures r.Ok? <==> ex.Received? && ex.status == StatusOK && decode(ex.body).Ok? && decode(ex.body).value.choices != []
    ensures r.Ok? ==> r.value == decode(ex.body).value.choices[0].message.content
  {
    match ex
    case TransportFailed(d) => Err(RequestFailed(d))
    case ReadFailed(d) => Err(ReadResponseFailed(d))
    case Received(status, body) =>
      if status != StatusOK then Err(UpstreamStatus(status, body))
      else match decode(body)
        case Err(d) => Err(ParseResponseFailed(d))
        case Ok(resp) =>
          if |resp.choices| == 0 then Err(NoChoices) else Ok(resp.choices[0].message.content)
  }

  /** A status other than 200 is reported without consulting the decoder at all. */
  lemma NonOkStatusIgnoresDecoder(status: int, body: string, d1: string -> Result<ChatResponse, string>,
                                  d2: string -> Result<ChatResponse, string>)
    requires status != StatusOK
    ensures Interpret(Received(status, body), d1) == Interpret(Received(status, body), d2)
  {
  }

  /** callAPI: encode the body, build the request for the normalised URL, perform one
      round trip and interpret its outcome. */
  function CallAPI(config: LLMConfig, messages: seq<ChatMessage>, b: Backend): (r: Result<string, LlmError>)
    ensures b.encodeRequest(ChatRequestFor(config, messages)).Err? ==>
              r == Err(EncodeRequestFailed(b.encodeRequest(ChatRequestFor(config, messages)).error))
    ensures b.encodeRequest(ChatRequestFor(config, messages)).Ok? && b.newRequest(BuildEndpointURL(config.apiUrl)).Some? ==>
              r == Err(CreateRequestFailed(b.newRequest(BuildEndpointURL(config.apiUrl)).value))
    ensures b.encodeRequest(ChatRequestFor(config, messages)).Ok? && b.newRequest(BuildEndpointURL(config.apiUrl)).None? ==>
              r == Interpret(b.roundTrip(OutgoingRequest(config, b.encodeRequest(ChatRequestFor(config, messages)).value)),
                             b.decodeResponse)
  {
    match b.encodeRequest(ChatRequestFor(config, messages))
    case Err(d) => Err(EncodeRequestFailed(d))
    case Ok(body) =>
      var url := BuildEndpointURL(config.apiUrl);
      match b.newRequest(url)
      case Some(d) => Err(CreateRequestFailed(d))
      case None => Interpret(b.roundTrip(OutgoingRequest(config, body)), b.decodeResponse)
  }

  /** The network is consulted about one request only: two backends that answer that
      request alike give the same result. */
  lemma CallAPIAsksOnce(config: LLMConfig, messages: seq<ChatMessage>, b: Backend, roundTrip: HttpRequest -> Exchange)
    requires b.encodeRequest(ChatRequestFor(config, messages)).Ok?
    requires roundTrip(OutgoingRequest(config, b.encodeRequest(ChatRequestFor(config, messages)).value))
          == b.roundTrip(OutgoingRequest(config, b.encodeRequest(ChatRequestFor(config, messages)).value))
    ensures CallAPI(config, messages, b.(roundTrip := roundTrip)) == CallAPI(config, messages, b)
  {
  }

  // ----- Prompts -----

  const OrganizeSystemPrompt := "你是一个代理节点整理助手。你的任务是根据用户的指令，对代理节点进行分类、整理和建议。\n请以JSON格式返回结果。\n\n返回格式要求:\n{\n  \"groups\": [\n    {\n      \"name\": \"分组名称\",\n      \"nodeIds\": [1, 2, 3],\n      \"description\": \"分组说明\"\n    }\n  ],\n  \"suggestions\": \"整理建议和说明\"\n}\n\n注意：\n- nodeIds必须使用原始节点的id\n- 只返回JSON，不要包含其他内容\n- 分组名称应该简洁明了"
  const OrganizeListHeader := "以下是需要整理的节点列表：\n"
  const OrganizeInstructionLabel := "\n\n用户指令："
  const OrganizeDefaultRequest := "\n\n请按照地区和协议对节点进行分组整理。"

  /** The client names the Clash and Surge format descriptions begin with. */
  const ClashName := "Clash"
  const SurgeName := "Surge"
  const ClashRuleFormat := ClashName + "/Mihomo YAML格式的rules部分。示例格式:\nrules:\n  - DOMAIN-SUFFIX,google.com,节点分组名\n  - GEOIP,CN,DIRECT\n  - MATCH,节点分组名"
  const SurgeRuleFormat := SurgeName + "规则格式。示例格式:\n[Rule]\nDOMAIN-SUFFIX,google.com,节点分组名\nGEOIP,CN,DIRECT\nFINAL,节点分组名"
  const GenericRuleFormat := "通用代理规则格式"
  const RulesPromptHead := "你是一个代理订阅规则生成助手。根据用户提供的节点信息和需求，生成合适的"
  const RulesPromptMiddle := "订阅规则。\n\n规则格式要求："
  const RulesPromptTail := "\n\n请以JSON格式返回结果：\n{\n  \"rules\": \"生成的规则内容（字符串形式）\",\n  \"proxyGroups\": [\n    {\n      \"name\": \"分组名称\",\n      \"type\": \"select/url-test/fallback\",\n      \"nodeIds\": [1, 2, 3]\n    }\n  ],\n  \"description\": \"规则说明\"\n}\n\n注意：\n- 只返回JSON，不要包含其他内容\n- 规则应该包含常用的分流规则（如国内直连、国外代理等）\n- 代理组名称应该简洁明了\n- nodeIds必须使用原始节点的id"
  const RulesListHeader := "以下是可用的节点列表：\n"
  const RulesListTrailer := "\n\n"
  const RulesInstructionLabel := "用户需求："
  const RulesDefaultRequest := "请根据节点的地区和类型，生成合适的代理分流规则。包含国内直连、国外代理、流媒体分流等常用规则。"

  const TestPrompt := "请回复 ok"

  /** The user prompt of OrganizeNodes: the node list embedded after a fixed header,
      followed by the caller's instruction, or by a default request when there is none. */
  function OrganizeUserPrompt(nodesJson: string, instruction: string): (p: string)
    ensures |p| >= |OrganizeListHeader| + |nodesJson|
    ensures p[..|OrganizeListHeader|] == OrganizeListHeader
    ensures p[|OrganizeListHeader|..|OrganizeListHeader| + |nodesJson|] == nodesJson
    ensures instruction != "" ==> p[|OrganizeListHeader| + |nodesJson|..] == OrganizeInstructionLabel + instruction
    ensures instruction == "" ==> p[|OrganizeListHeader| + |nodesJson|..] == OrganizeDefaultRequest
  {
    var tail := if instruction == "" then OrganizeDefaultRequest else OrganizeInstructionLabel + instruction;
    Concat3(OrganizeListHeader, nodesJson, tail);
    OrganizeListHeader + nodesJson + tail
  }

  /** The two messages OrganizeNodes sends: the system prompt, then the user prompt. */
  function OrganizeMessages(nodesJson: string, instruction: string): (m: seq<ChatMessage>)
    ensures |m| == 2
    ensures m[0] == ChatMessage(RoleSystem, OrganizeSystemPrompt)
    ensures m[1] == ChatMessage(RoleUser, OrganizeUserPrompt(nodesJson, instruction))
  {
    [ChatMessage(RoleSystem, OrganizeSystemPrompt), ChatMessage(RoleUser, OrganizeUserPrompt(nodesJson, instruction))]
  }

  /** OrganizeNodes: a configuration error is returned before anything is encoded or
      sent; otherwise the node list is encoded and the two messages go to callAPI. */
  function OrganizeNodes(nodes: seq<NodeInfo>, instruction: string, store: map<string, string>, b: Backend)
    : (r: Result<string, LlmError>)
    ensures GetConfig(store).Err? ==> r == Err(GetConfig(store).error)
    ensures GetConfig(store).Ok? && b.encodeNodes(nodes).Err? ==> r == Err(EncodeNodesFailed(b.encodeNodes(nodes).error))
    ensures GetConfig(store).Ok? && b.encodeNodes(nodes).Ok? ==>
              r == CallAPI(GetConfig(store).value, OrganizeMessages(b.encodeNodes(nodes).value, instruction), b)
  {
    match GetConfig(store)
    case Err(e) => Err(e)
    case Ok(config) =>
      match b.encodeNodes(nodes)
      case Err(d) => Err(EncodeNodesFailed(d))
      case Ok(nodesJson) => CallAPI(config, OrganizeMessages(nodesJson, instruction), b)
  }

  /** The three branches of GenerateRules' switch on the client type. */
  datatype RuleFlavour = ClashRules | SurgeRules | GenericRules

  /** "clash" and "surge" are recognised exactly; every other client type, the empty one
      included, falls back to the generic flavour. */
  function Flavour(clientType: string): (k: RuleFlavour)
    ensures k == ClashRules <==> clientType == "clash"
    ensures k == SurgeRules <==> clientType == "surge"
  {
    if clientType == "clash" then ClashRules
    else if clientType == "surge" then SurgeRules
    else GenericRules
  }

  /** The rule-format description each flavour puts into the system prompt. */
  function FormatDescription(k: RuleFlavour): (d: string)
    ensures HasPrefix(d, ClashName) <==> k == ClashRules
    ensures HasPrefix(d, SurgeName) <==> k == SurgeRules
  {
    match k
    case ClashRules =>
      DifferAt(SurgeName, ClashRuleFormat, 0);
      ClashRuleFormat
    case SurgeRules =>
      DifferAt(ClashName, SurgeRuleFormat, 0);
      SurgeRuleFormat
    case GenericRules =>
      DifferAt(ClashName, GenericRuleFormat, 0);
      DifferAt(SurgeName, GenericRuleFormat, 0);
      GenericRuleFormat
  }

  /** The three descriptions differ, so the prompt tells the flavours apart. */
  lemma FormatDescriptionsDistinct(k1: RuleFlavour, k2: RuleFlavour)
    requires FormatDescription(k1) == FormatDescription(k2)
    ensures k1 == k2
  {
  }

  /** The system prompt of GenerateRules, naming the client type and its rule format. */
  function RulesSystemPrompt(clientType: string): (p: string)
    ensures HasPrefix(p, RulesPromptHead + clientType + RulesPromptMiddle + FormatDescription(Flavour(clientType)))
    ensures p[|RulesPromptHead|..|RulesPromptHead| + |clientType|] == clientType
    ensures p[|RulesPromptHead| + |clientType| + |RulesPromptMiddle|..][..|FormatDescription(Flavour(clientType))|]
            == FormatDescription(Flavour(clientType))
  {
    var f := FormatDescription(Flavour(clientType));
    PromptParts(RulesPromptHead, clientType, RulesPromptMiddle, f, RulesPromptTail);
    RulesPromptHead + clientType + RulesPromptMiddle + f + RulesPromptTail
  }

  /** The user prompt of GenerateRules: the node list, then the caller's requirement, or a
      default request when there is none. */
  function RulesUserPrompt(nodesJson: string, instruction: string): (p: string)
    ensures |p| >= |RulesListHeader| + |nodesJson| + |RulesListTrailer|
    ensures p[..|RulesListHeader|] == RulesListHeader
    ensures p[|RulesListHeader|..|RulesListHeader| + |nodesJson|] == nodesJson
    ensures instruction != "" ==> p[|RulesListHeader| + |nodesJson|..] == RulesListTrailer + RulesInstructionLabel + instruction
    ensures instruction == "" ==> p[|RulesListHeader| + |nodesJson|..] == RulesListTrailer + RulesDefaultRequest
  {
    var tail := RulesListTrailer + if instruction != "" then RulesInstructionLabel + instruction else RulesDefaultRequest;
    Concat3(RulesListHeader, nodesJson, tail);
    RulesListHeader + nodesJson + tail
  }

  function RulesMessages(nodesJson: string, clientType: string, instruction: string): (m: seq<ChatMessage>)
    ensures |m| == 2
    ensures m[0] == ChatMessage(RoleSystem, RulesSystemPrompt(clientType))
    ensures m[1] == ChatMessage(RoleUser, RulesUserPrompt(nodesJson, instruction))
  {
    [ChatMessage(RoleSystem, RulesSystemPrompt(clientType)), ChatMessage(RoleUser, RulesUserPrompt(nodesJson, instruction))]
  }

  /** GenerateRules: like OrganizeNodes, with the rule-generation prompts. */
  function GenerateRules(nodes: seq<NodeInfo>, clientType: string, instruction: string, store: map<string, string>, b: Backend)
    : (r: Result<string, LlmError>)
    ensures GetConfig(store).Err? ==> r == Err(GetConfig(store).error)
    ensures GetConfig(store).Ok? && b.encodeNodes(nodes).Err? ==> r == Err(EncodeNodesFailed(b.encodeNodes(nodes).error))
    ensures GetConfig(store).Ok? && b.encodeNodes(nodes).Ok? ==>
              r == CallAPI(GetConfig(store).value, RulesMessages(b.encodeNodes(nodes).value, clientType, instruction), b)
  {
    match GetConfig(store)
    case Err(e) => Err(e)
    case Ok(config) =>
      match b.encodeNodes(nodes)
      case Err(d) => Err(EncodeNodesFailed(d))
      case Ok(nodesJson) => CallAPI(config, RulesMessages(nodesJson, clientType, instruction), b)
  }

  /** A missing URL or key stops both operations before the backend is used at all. */
  lemma ConfigErrorPrecedesBackend(nodes: seq<NodeInfo>, clientType: string, instruction: string,
                                   store: map<string, string>, b1: Backend, b2: Backend)
    requires Setting(store, SettingApiUrl) == "" || Setting(store, SettingApiKey) == ""
    ensures OrganizeNodes(nodes, instruction, store, b1) == OrganizeNodes(nodes, instruction, store, b2)
    ensures GenerateRules(nodes, clientType, instruction, store, b1) == GenerateRules(nodes, clientType, instruction, store, b2)
    ensures OrganizeNodes(nodes, instruction, store, b1).Err?
    ensures OrganizeNodes(nodes, instruction, store, b1).error in {ApiUrlMissing, ApiKeyMissing}
    ensures GenerateRules(nodes, clientType, instruction, store, b1).Err?
    ensures GenerateRules(nodes, clientType, instruction, store, b1).error in {ApiUrlMissing, ApiKeyMissing}
  {
  }

  /** TestConnection: one fixed user message; success (None) exactly when callAPI
      succeeds with non-empty text. */
  function TestConnection(config: LLMConfig, b: Backend): (r: Option<LlmError>)
    ensures r.None? <==> (CallAPI(config, [ChatMessage(RoleUser, TestPrompt)], b).Ok?
                          && CallAPI(config, [ChatMessage(RoleUser, TestPrompt)], b).value != "")
    ensures CallAPI(config, [ChatMessage(RoleUser, TestPrompt)], b).Err? ==>
              r == Some(CallAPI(config, [ChatMessage(RoleUser, TestPrompt)], b).error)
    ensures CallAPI(config, [ChatMessage(RoleUser, TestPrompt)], b) == Ok("") ==> r == Some(EmptyResult)
  {
    match CallAPI(config, [ChatMessage(RoleUser, TestPrompt)], b)
    case Err(e) => Some(e)
    case Ok(text) => if text == "" then Some(EmptyResult) else None
  }
}
