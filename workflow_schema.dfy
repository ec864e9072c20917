/** The typed workflow schema: the HTTP methods a webhook accepts and the record types for
    webhook nodes, connections, settings and whole webhook workflows, each with the default
    values its fields take when they are not given. */
module WorkflowSchema {
  import opened Wrappers
  import opened JsonValues

  // ---------------------------------------------------------------------------
  // HTTPMethod

  datatype HTTPMethod = GET | POST | PUT | DELETE | PATCH | HEAD | OPTIONS

  /** The string value of each member. */
  function MethodValue(m: HTTPMethod): string
  {
    match m
    case GET => "GET"
    case POST => "POST"
    case PUT => "PUT"
    case DELETE => "DELETE"
    case PATCH => "PATCH"
    case HEAD => "HEAD"
    case OPTIONS => "OPTIONS"
  }

  const AllMethods: seq<HTTPMethod> := [GET, POST, PUT, DELETE, PATCH, HEAD, OPTIONS]

  /** HTTPMethod(value): the member with that value, or the ValueError (None) if there is none. */
  function MethodOf(value: string): Option<HTTPMethod>
  {
    if value == "GET" then Some(GET)
    else if value == "POST" then Some(POST)
    else if value == "PUT" then Some(PUT)
    else if value == "DELETE" then Some(DELETE)
    else if value == "PATCH" then Some(PATCH)
    else if value == "HEAD" then Some(HEAD)
    else if value == "OPTIONS" then Some(OPTIONS)
    else None
  }

  /** c.upper() for the characters whose upper case is ASCII: the ASCII letters and ß, dotless
      ı, long ſ and the Latin ligatures ﬀ to ﬆ. Every other character is kept; Python maps
      some of them to other non-ASCII characters, which cannot change whether a string's upper
      case is one of the seven ASCII method values. */
  function UpperChar(c: char): string
  {
    if 'a' <= c <= 'z' then [((c as int) - 32) as char]
    else if c == '\U{00DF}' then "SS"
    else if c == '\U{0131}' then "I"
    else if c == '\U{017F}' then "S"
    else if c == '\U{FB00}' then "FF"
    else if c == '\U{FB01}' then "FI"
    else if c == '\U{FB02}' then "FL"
    else if c == '\U{FB03}' then "FFI"
    else if c == '\U{FB04}' then "FFL"
    else if c == '\U{FB05}' || c == '\U{FB06}' then "ST"
    else [c]
  }

  /** s.upper() */
  function Upper(s: string): string
  {
    if s == [] then [] else UpperChar(s[0]) + Upper(s[1..])
  }

  /** HTTPMethod(method.upper()), the parse the webhook route applies to its query argument. */
  function ParseMethod(s: string): Option<HTTPMethod>
  {
    MethodOf(Upper(s))
  }

  /** The enum has exactly seven members, with seven different upper-case values. */
  lemma MethodsAreSeven()
    ensures |AllMethods| == 7
    ensures forall m: HTTPMethod :: m in AllMethods
    ensures forall i, j :: 0 <= i < j < |AllMethods| ==> MethodValue(AllMethods[i]) != MethodValue(AllMethods[j])
    ensures forall m: HTTPMethod :: Upper(MethodValue(m)) == MethodValue(m)
  {
    forall m: HTTPMethod
      ensures m in AllMethods
    {
      match m
      case GET => assert AllMethods[0] == m;
      case POST => assert AllMethods[1] == m;
      case PUT => assert AllMethods[2] == m;
      case DELETE => assert AllMethods[3] == m;
      case PATCH => assert AllMethods[4] == m;
      case HEAD => assert AllMethods[5] == m;
      case OPTIONS => assert AllMethods[6] == m;
    }
    forall m: HTTPMethod
      ensures Upper(MethodValue(m)) == MethodValue(m)
    {
      var v := MethodValue(m);
      assert forall i :: 0 <= i < |v| ==> 'A' <= v[i] <= 'Z';
      UpperOfUpperAscii(v);
    }
  }

  lemma {:induction false} UpperOfUpperAscii(s: string)
    requires forall i :: 0 <= i < |s| ==> 'A' <= s[i] <= 'Z'
    ensures Upper(s) == s
  {
    if s != [] {
      UpperOfUpperAscii(s[1..]);
      assert [s[0]] + s[1..] == s;
    }
  }

  /** value lookup and MethodValue are inverse to each other. */
  lemma MethodOfIff(value: string, m: HTTPMethod)
    ensures MethodOf(value) == Some(m) <==> value == MethodValue(m)
  {
  }

  /** A string parses to m exactly when its upper case is m's value; so each value parses in
      any mix of cases. */
  lemma ParseMethodIff(s: string, m: HTTPMethod)
    ensures ParseMethod(s) == Some(m) <==> Upper(s) == MethodValue(m)
  {
    MethodOfIff(Upper(s), m);
  }

  // ---------------------------------------------------------------------------
  // Record types and their defaults

  const WEBHOOK_NODE_TYPE := "n8n-nodes-base.webhook"

  datatype WebhookNodeParameters = WebhookNodeParameters(
    httpMethod: HTTPMethod := POST,
    path: string,
    responseMode: string := "responseNode",
    options: map<string, Json> := map[])

  /** A webhook node; `nodeType` is the field called "type". */
  datatype WebhookNode = WebhookNode(
    parameters: WebhookNodeParameters,
    nodeType: string := WEBHOOK_NODE_TYPE,
    typeVersion: int := 2,
    position: seq<int>,
    id: string,
    name: string := "Webhook",
    webhookId: Option<string> := None)

  /** An edge end; `connectionType` is the field called "type". */
  datatype NodeConnection = NodeConnection(node: string, connectionType: string, index: int := 0)

  datatype WorkflowConnections = WorkflowConnections(main: seq<seq<NodeConnection>> := [[]])

  datatype WorkflowSettings = WorkflowSettings(
    executionOrder: string := "v1",
    saveExecutionProgress: bool := true,
    saveManualExecutions: bool := true,
    saveDataErrorExecution: string := "all",
    saveDataSuccessExecution: string := "all")

  datatype WebhookWorkflow = WebhookWorkflow(
    name: string,
    nodes: seq<Json>,
    connections: map<string, map<string, seq<seq<NodeConnection>>>>,
    active: bool := true,
    settings: WorkflowSettings := WorkflowSettings(),
    id: Option<string> := None)

  // ---------------------------------------------------------------------------
  // JSON forms (model_dump(mode="json")) and the parse of webhook parameters

  function OptionalString(o: Option<string>): Json
  {
    match o
    case None => JNull
    case Some(s) => JStr(s)
  }

  function ParametersJson(p: WebhookNodeParameters): Json
  {
    JObj(map["httpMethod" := JStr(MethodValue(p.httpMethod)), "path" := JStr(p.path),
             "responseMode" := JStr(p.responseMode), "options" := JObj(p.options)])
  }

  function NodeJson(n: WebhookNode): Json
  {
    JObj(map["parameters" := ParametersJson(n.parameters), "type" := JStr(n.nodeType),
             "typeVersion" := JNum(n.typeVersion),
             "position" := JArr(seq(|n.position|, i requires 0 <= i < |n.position| => JNum(n.position[i]))),
             "id" := JStr(n.id), "name" := JStr(n.name), "webhookId" := OptionalString(n.webhookId)])
  }

  function SettingsJson(s: WorkflowSettings): Json
  {
    JObj(map["executionOrder" := JStr(s.executionOrder),
             "saveExecutionProgress" := JBool(s.saveExecutionProgress),
             "saveManualExecutions" := JBool(s.saveManualExecutions),
             "saveDataErrorExecution" := JStr(s.saveDataErrorExecution),
             "saveDataSuccessExecution" := JStr(s.saveDataSuccessExecution)])
  }

  /** WebhookNodeParameters(**d): `path` is required, a missing optional field takes its
      default, unknown keys are ignored, and a field of the wrong JSON type is rejected. */
  function ParseParameters(j: Json): (r: Option<WebhookNodeParameters>)
    ensures r.Some? ==> j.JObj? && "path" in j.fields && j.fields["path"] == JStr(r.value.path)
  {
    match j
    case JObj(m) =>
      var httpMethod :=
        if "httpMethod" !in m then Some(POST)
        else if m["httpMethod"].JStr? then MethodOf(m["httpMethod"].s)
        else None;
      var responseMode :=
        if "responseMode" !in m then Some("responseNode")
        else if m["responseMode"].JStr? then Some(m["responseMode"].s)
        else None;
      var options :=
        if "options" !in m then Some(map[])
        else if m["options"].JObj? then Some(m["options"].fields)
        else None;
      if "path" in m && m["path"].JStr? && httpMethod.Some? && responseMode.Some? && options.Some? then
        Some(WebhookNodeParameters(httpMethod.value, m["path"].s, responseMode.value, options.value))
      else None
    case _ => None
  }

  /** Parsing the JSON form of parameters gives them back. */
  lemma ParametersRoundTrip(p: WebhookNodeParameters)
    ensures ParseParameters(ParametersJson(p)) == Some(p)
  {
    MethodOfIff(MethodValue(p.httpMethod), p.httpMethod);
  }

  /** Only `path` is required: alone it yields POST, "responseNode" and no options. */
  lemma ParametersDefaults(path: string)
    ensures ParseParameters(JObj(map["path" := JStr(path)])) == Some(WebhookNodeParameters(path := path))
    ensures var p := WebhookNodeParameters(path := path);
            p.httpMethod == POST && p.responseMode == "responseNode" && p.options == map[]
  {
  }

  /** Without a string `path` there are no parameters. */
  lemma ParametersNeedPath(j: Json)
    requires j.JObj? && ("path" !in j.fields || !j.fields["path"].JStr?)
    ensures ParseParameters(j) == None
  {
  }

  /** The defaults every record type declares, as their JSON forms show them. */
  lemma SchemaDefaults(p: WebhookNodeParameters, position: seq<int>, id: string, node: string,
                       connectionType: string, name: string, nodes: seq<Json>,
                       connections: map<string, map<string, seq<seq<NodeConnection>>>>)
    ensures var n := WebhookNode(parameters := p, position := position, id := id);
            n.nodeType == WEBHOOK_NODE_TYPE && n.typeVersion == 2 && n.name == "Webhook" &&
            n.webhookId == None && NodeJson(n).fields["webhookId"] == JNull
    ensures NodeConnection(node := node, connectionType := connectionType).index == 0
    ensures WorkflowConnections().main == [[]]
    ensures SettingsJson(WorkflowSettings()) ==
            JObj(map["executionOrder" := JStr("v1"), "saveExecutionProgress" := JBool(true),
                     "saveManualExecutions" := JBool(true), "saveDataErrorExecution" := JStr("all"),
                     "saveDataSuccessExecution" := JStr("all")])
    ensures var w := WebhookWorkflow(name := name, nodes := nodes, connections := connections);
            w.active && w.settings == WorkflowSettings() && w.id == None
  {
  }
}
