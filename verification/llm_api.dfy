/** The HTTP handlers of api/llm.go that sit in front of the LLM client: they validate
    and default the bound request, strip each node's link before anything leaves the
    server, call the service, and turn its outcome into one reply.

    Request binding (gin's ShouldBindJSON) is an input: None when the JSON body does not
    bind. protocol.GetProtocolFromLink is the parameter `protocolOf`. */
module LlmApi {
  import opened Results
  import opened GoStrings
  import opened LlmService

  /** One element of the `nodes` array a client posts; it still carries the node's link,
      which holds the connection secrets. */
  datatype RequestNode = RequestNode(id: int, name: string, link: string, country: string, group: string)

  datatype OrganizeRequest = OrganizeRequest(nodes: seq<RequestNode>, instruction: string)

  datatype RulesRequest = RulesRequest(nodes: seq<RequestNode>, clientType: string, instruction: string)

  datatype TestRequest = TestRequest(apiUrl: string, apiKey: string, model: string)

  /** The reply written through utils.FailWithMsg, utils.OkDetailed (with a "result"
      entry) or utils.OkWithMsg. */
  datatype Reply =
    | FailWithMsg(msg: string)
    | OkDetailed(msg: string, result: string)
    | OkWithMsg(msg: string)

  const BadParamsMsg := "参数错误"
  const EmptyNodesMsg := "节点列表不能为空"
  const MissingCredentialsMsg := "API URL 和 API Key 不能为空"
  const OrganizeFailedPrefix := "LLM整理失败: "
  const OrganizeDoneMsg := "整理完成"
  const RulesFailedPrefix := "规则生成失败: "
  const RulesDoneMsg := "生成完成"
  const TestFailedPrefix := "连接测试失败: "
  const TestDoneMsg := "连接测试成功"
  const DefaultClientType := "clash"

  // ----- Node projection -----

  /** The summary of one posted node: every field but the link is copied, and the link
      contributes only the protocol name derived from it. */
  function Summary(n: RequestNode, protocolOf: string -> string): (r: NodeInfo)
    ensures r.id == n.id && r.name == n.name && r.country == n.country && r.group == n.group
    ensures r.protocol == protocolOf(n.link)
  {
    NodeInfo(n.id, n.name, protocolOf(n.link), n.country, n.group)
  }

  /** The summaries of a node list, element by element and in order. */
  function Projected(ns: seq<RequestNode>, protocolOf: string -> string): (r: seq<NodeInfo>)
    ensures |r| == |ns|
    ensures forall i :: 0 <= i < |ns| ==> r[i] == Summary(ns[i], protocolOf)
  {
    seq(|ns|, i requires 0 <= i < |ns| => Summary(ns[i], protocolOf))
  }

  /** What leaves the server does not depend on the links beyond their protocol names:
      node lists that differ only in links of the same protocol project alike. */
  lemma ProjectionHidesLinks(ns: seq<RequestNode>, ms: seq<RequestNode>, protocolOf: string -> string)
    requires |ns| == |ms|
    requires forall i :: 0 <= i < |ns| ==> ns[i].(link := ms[i].link) == ms[i]
    requires forall i :: 0 <= i < |ns| ==> protocolOf(ns[i].link) == protocolOf(ms[i].link)
    ensures Projected(ns, protocolOf) == Projected(ms, protocolOf)
  {
    forall i | 0 <= i < |ns|
      ensures Projected(ns, protocolOf)[i] == Projected(ms, protocolOf)[i]
    {
      assert ns[i].(link := ms[i].link) == ms[i];
    }
  }

  /** The `for … range` loop of both node handlers: appends one summary per posted node. */
  method ProjectNodes(ns: seq<RequestNode>, protocolOf: string -> string) returns (nodes: seq<NodeInfo>)
    ensures |nodes| == |ns|
    ensures forall i :: 0 <= i < |ns| ==> nodes[i] == Summary(ns[i], protocolOf)
    ensures nodes == Projected(ns, protocolOf)
  {
    nodes := [];
    for i := 0 to |ns|
      invariant |nodes| == i
      invariant forall k :: 0 <= k < i ==> nodes[k] == Summary(ns[k], protocolOf)
    {
      nodes := nodes + [Summary(ns[i], protocolOf)];
    }
  }

  // ----- Replies -----

  /** How both node handlers report the service's outcome: the result on success, the
      fixed prefix followed by the error's text on failure. */
  function Relay(out: Result<string, LlmError>, doneMsg: string, failedPrefix: string): (reply: Reply)
    ensures out.Ok? <==> reply.OkDetailed?
    ensures out.Ok? ==> reply == OkDetailed(doneMsg, out.value)
    ensures out.Err? ==> reply == FailWithMsg(failedPrefix + ErrorText(out.error))
    ensures out.Err? ==> reply.FailWithMsg? && HasPrefix(reply.msg, failedPrefix)
                         && ParseErrorText(reply.msg[|failedPrefix|..]) == Some(out.error)
  {
    match out
    case Ok(result) => OkDetailed(doneMsg, result)
    case Err(e) =>
      var msg := failedPrefix + ErrorText(e);
      assert msg[|failedPrefix|..] == ErrorText(e);
      ErrorTextRoundTrip(e);
      FailWithMsg(msg)
  }

  // ----- Handlers -----

  /** LLMOrganizeNodes. */
  method OrganizeNodesHandler(bound: Option<OrganizeRequest>, protocolOf: string -> string,
                              store: map<string, string>, b: Backend) returns (reply: Reply)
    ensures bound.None? ==> reply == FailWithMsg(BadParamsMsg)
    ensures bound.Some? && bound.value.nodes == [] ==> reply == FailWithMsg(EmptyNodesMsg)
    ensures bound.Some? && bound.value.nodes != [] ==>
              reply == Relay(OrganizeNodes(Projected(bound.value.nodes, protocolOf), bound.value.instruction, store, b),
                             OrganizeDoneMsg, OrganizeFailedPrefix)
  {
    if bound.None? {
      return FailWithMsg(BadParamsMsg);
    }
    var req := bound.value;
    if |req.nodes| == 0 {
      return FailWithMsg(EmptyNodesMsg);
    }
    var nodes := ProjectNodes(req.nodes, protocolOf);
    var out := OrganizeNodes(nodes, req.instruction, store, b);
    reply := Relay(out, OrganizeDoneMsg, OrganizeFailedPrefix);
  }

  /** LLMGenerateRules. An empty client type is replaced by "clash" before the service
      is called. */
  method GenerateRulesHandler(bound: Option<RulesRequest>, protocolOf: string -> string,
                              store: map<string, string>, b: Backend) returns (reply: Reply)
    ensures bound.None? ==> reply == FailWithMsg(BadParamsMsg)
    ensures bound.Some? && bound.value.nodes == [] ==> reply == FailWithMsg(EmptyNodesMsg)
    ensures bound.Some? && bound.value.nodes != [] && bound.value.clientType == "" ==>
              reply == Relay(GenerateRules(Projected(bound.value.nodes, protocolOf), DefaultClientType,
                                           bound.value.instruction, store, b),
                             RulesDoneMsg, RulesFailedPrefix)
    ensures bound.Some? && bound.value.nodes != [] && bound.value.clientType != "" ==>
              reply == Relay(GenerateRules(Projected(bound.value.nodes, protocolOf), bound.value.clientType,
                                           bound.value.instruction, store, b),
                             RulesDoneMsg, RulesFailedPrefix)
  {
    if bound.None? {
      return FailWithMsg(BadParamsMsg);
    }
    var req := bound.value;
    if |req.nodes| == 0 {
      return FailWithMsg(EmptyNodesMsg);
    }
    if req.clientType == "" {
      req := req.(clientType := DefaultClientType);
    }
    var nodes := ProjectNodes(req.nodes, protocolOf);
    var out := GenerateRules(nodes, req.clientType, req.instruction, store, b);
    reply := Relay(out, RulesDoneMsg, RulesFailedPrefix);
  }

  /** The handler's default matters: left to the service, an empty client type would get
      the generic rule format, but after defaulting it gets the Clash format. */
  lemma EmptyClientTypeGetsClashRules()
    ensures Flavour("") == GenericRules
    ensures Flavour(DefaultClientType) == ClashRules
    ensures FormatDescription(Flavour(DefaultClientType)) != FormatDescription(Flavour(""))
  {
  }

  /** LLMTestConnection: the posted URL and key must both be non-empty; an empty model
      becomes gpt-3.5-turbo; the configuration carries exactly these three values. */
  method TestConnectionHandler(bound: Option<TestRequest>, b: Backend) returns (reply: Reply)
    ensures bound.None? ==> reply == FailWithMsg(BadParamsMsg)
    ensures bound.Some? && (bound.value.apiUrl == "" || bound.value.apiKey == "") ==>
              reply == FailWithMsg(MissingCredentialsMsg)
    ensures bound.Some? && bound.value.apiUrl != "" && bound.value.apiKey != "" ==>
              var config := LLMConfig(bound.value.apiUrl, bound.value.apiKey,
                                      if bound.value.model == "" then DefaultModel else bound.value.model);
              && (reply == OkWithMsg(TestDoneMsg) <==> TestConnection(config, b).None?)
              && (TestConnection(config, b).Some? ==>
                    reply == FailWithMsg(TestFailedPrefix + ErrorText(TestConnection(config, b).value)))
              && (TestConnection(config, b).Some? ==>
                    reply.FailWithMsg? && HasPrefix(reply.msg, TestFailedPrefix)
                    && ParseErrorText(reply.msg[|TestFailedPrefix|..]) == TestConnection(config, b))
  {
    if bound.None? {
      return FailWithMsg(BadParamsMsg);
    }
    var req := bound.value;
    if req.apiUrl == "" || req.apiKey == "" {
      return FailWithMsg(MissingCredentialsMsg);
    }
    if req.model == "" {
      req := req.(model := DefaultModel);
    }
    var config := LLMConfig(req.apiUrl, req.apiKey, req.model);
    var err := TestConnection(config, b);
    if err.Some? {
      var msg := TestFailedPrefix + ErrorText(err.value);
      assert msg[|TestFailedPrefix|..] == ErrorText(err.value);
      ErrorTextRoundTrip(err.value);
      return FailWithMsg(msg);
    }
    reply := OkWithMsg(TestDoneMsg);
  }
}
