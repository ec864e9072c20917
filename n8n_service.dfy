/** The list-building and normalising parts of the n8n client: webhook-path extraction, the
    import normalisation, the workflow-query parameters, the paginated bulk delete, and what
    create, activate and deactivate make of the platform's replies. */
module N8nService {
  import opened Wrappers
  import opened JsonValues
  import opened WorkflowSchema
  import opened Calls

  // ---------------------------------------------------------------------------
  // get_webhook_ids

  /** For one node: the path of a webhook node, None for any other node, or the error raised
      while looking at it. */
  function NodePath(node: Json): (r: Result<Option<Json>, Exn>)
    ensures r == Success(None) <==> exists t :: Get(node, "type") == Success(t) && t != JStr(WEBHOOK_NODE_TYPE)
  {
    match Get(node, "type")
    case Failure(e) => Failure(e)
    case Success(t) =>
      if t != JStr(WEBHOOK_NODE_TYPE) then Success(None)
      else match Get(node, "parameters")
        case Failure(e) => Failure(e)
        case Success(p) =>
          match Get(p, "path")
          case Failure(e) => Failure(e)
          case Success(path) => Success(Some(path))
  }

  /** The paths collected by the loop over nodes, in node order; the first node that raises
      ends the loop with its error. */
  function WebhookPaths(nodes: seq<Json>): Result<seq<Json>, Exn>
  {
    if nodes == [] then Success([])
    else
      match WebhookPaths(nodes[..|nodes| - 1])
      case Failure(e) => Failure(e)
      case Success(ps) =>
        match NodePath(nodes[|nodes| - 1])
        case Failure(e) => Failure(e)
        case Success(None) => Success(ps)
        case Success(Some(p)) => Success(ps + [p])
  }

  /** get_webhook_ids(json_data) */
  function WebhookIdsOf(data: Json): Result<seq<Json>, Exn>
  {
    match Get(data, "nodes")
    case Failure(e) => Failure(e)
    case Success(ns) =>
      match KeyedItems(ns)
      case Failure(e) => Failure(e)
      case Success(nodes) => WebhookPaths(nodes)
  }

  /** The loop of get_webhook_ids. */
  method GetWebhookIds(data: Json) returns (r: Result<seq<Json>, Exn>)
    ensures r == WebhookIdsOf(data)
  {
    var ns := Get(data, "nodes");
    if ns.Failure? {
      return Failure(ns.error);
    }
    var items := KeyedItems(ns.value);
    if items.Failure? {
      return Failure(items.error);
    }
    var nodes := items.value;
    var ids: seq<Json> := [];
    var i := 0;
    while i < |nodes|
      invariant 0 <= i <= |nodes|
      invariant WebhookPaths(nodes[..i]) == Success(ids)
    {
      assert nodes[..i + 1][..i] == nodes[..i];
      var p := NodePath(nodes[i]);
      if p.Failure? {
        assert WebhookPaths(nodes[..i + 1]) == Failure(p.error);
        WebhookPathsFailurePersists(nodes[..i + 1], nodes[i + 1..]);
        assert nodes[..i + 1] + nodes[i + 1..] == nodes;
        return Failure(p.error);
      }
      if p.value.Some? {
        ids := ids + [p.value.value];
      }
      i := i + 1;
    }
    assert nodes[..i] == nodes;
    return Success(ids);
  }

  lemma {:induction false} WebhookPathsFailurePersists(a: seq<Json>, b: seq<Json>)
    requires WebhookPaths(a).Failure?
    ensures WebhookPaths(a + b) == WebhookPaths(a)
    decreases |b|
  {
    if b == [] {
      assert a + b == a;
    } else {
      var ab := a + b;
      assert ab[..|ab| - 1] == a + b[..|b| - 1];
      WebhookPathsFailurePersists(a, b[..|b| - 1]);
    }
  }

  /** Collecting over two runs of nodes is collecting over the first, then the second. */
  lemma {:induction false} WebhookPathsAppend(a: seq<Json>, b: seq<Json>)
    ensures WebhookPaths(a + b) ==
            match WebhookPaths(a)
            case Failure(e) => Failure(e)
            case Success(pa) =>
              match WebhookPaths(b)
              case Failure(e) => Failure(e)
              case Success(pb) => Success(pa + pb)
    decreases |b|
  {
    if b == [] {
      assert a + b == a;
      if WebhookPaths(a).Success? {
        assert WebhookPaths(a).value + [] == WebhookPaths(a).value;
      }
    } else {
      var ab := a + b;
      var b' := b[..|b| - 1];
      assert ab[..|ab| - 1] == a + b';
      assert ab[|ab| - 1] == b[|b| - 1];
      WebhookPathsAppend(a, b');
      var last := NodePath(b[|b| - 1]);
      if WebhookPaths(a).Success? && WebhookPaths(b').Success? && last.Success? && last.value.Some? {
        var pa, pb, p := WebhookPaths(a).value, WebhookPaths(b').value, last.value.value;
        assert pa + (pb + [p]) == (pa + pb) + [p];
      }
    }
  }

  /** One more node: the paths so far, then the node's own path if it is a webhook. */
  lemma WebhookPathsSnoc(nodes: seq<Json>)
    requires nodes != [] && WebhookPaths(nodes).Success?
    ensures WebhookPaths(nodes[..|nodes| - 1]).Success? && NodePath(nodes[|nodes| - 1]).Success?
    ensures WebhookPaths(nodes).value ==
            WebhookPaths(nodes[..|nodes| - 1]).value +
            (if NodePath(nodes[|nodes| - 1]).value.Some? then [NodePath(nodes[|nodes| - 1]).value.value] else [])
  {
  }

  /** The collection succeeds exactly when no node raises. */
  lemma {:induction false} WebhookPathsSucceed(nodes: seq<Json>)
    ensures WebhookPaths(nodes).Success? <==> forall i :: 0 <= i < |nodes| ==> NodePath(nodes[i]).Success?
  {
    if nodes != [] {
      var front := nodes[..|nodes| - 1];
      WebhookPathsSucceed(front);
      assert forall i :: 0 <= i < |front| ==> front[i] == nodes[i];
    }
  }

  /** On success, a value is among the paths exactly when some webhook node has it as its
      path. */
  lemma {:induction false} WebhookPathsMembers(nodes: seq<Json>, p: Json)
    requires WebhookPaths(nodes).Success?
    ensures p in WebhookPaths(nodes).value <==> exists i :: 0 <= i < |nodes| && NodePath(nodes[i]) == Success(Some(p))
  {
    if nodes != [] {
      var front := nodes[..|nodes| - 1];
      var last := NodePath(nodes[|nodes| - 1]);
      WebhookPathsSnoc(nodes);
      WebhookPathsMembers(front, p);
      var ps := WebhookPaths(front).value;
      if p in WebhookPaths(nodes).value {
        if p in ps {
          var i :| 0 <= i < |front| && NodePath(front[i]) == Success(Some(p));
          assert front[i] == nodes[i];
        } else {
          assert last == Success(Some(p));
        }
      }
      if exists i :: 0 <= i < |nodes| && NodePath(nodes[i]) == Success(Some(p)) {
        var i :| 0 <= i < |nodes| && NodePath(nodes[i]) == Success(Some(p));
        if i < |front| {
          assert front[i] == nodes[i];
        }
      }
    }
  }

  /** The first node that raises decides the error, whatever follows it. */
  lemma {:induction false} FirstRaisingNode(nodes: seq<Json>, k: nat)
    requires k < |nodes| && NodePath(nodes[k]).Failure?
    requires forall i :: 0 <= i < k ==> NodePath(nodes[i]).Success?
    ensures WebhookPaths(nodes) == Failure(NodePath(nodes[k]).error)
  {
    var front, upto := nodes[..k], nodes[..k + 1];
    forall i | 0 <= i < |front|
      ensures NodePath(front[i]).Success?
    {
      assert front[i] == nodes[i];
    }
    WebhookPathsSucceed(front);
    assert upto[..|upto| - 1] == front && upto[|upto| - 1] == nodes[k];
    assert WebhookPaths(upto) == Failure(NodePath(nodes[k]).error);
    WebhookPathsFailurePersists(upto, nodes[k + 1..]);
    assert upto + nodes[k + 1..] == nodes;
  }

  /** A node built from the schema with its default type is recognised, with its path;
      one of any other type is skipped. */
  lemma SchemaNodePath(n: WebhookNode)
    ensures n.nodeType == WEBHOOK_NODE_TYPE ==> NodePath(NodeJson(n)) == Success(Some(JStr(n.parameters.path)))
    ensures n.nodeType != WEBHOOK_NODE_TYPE ==> NodePath(NodeJson(n)) == Success(None)
  {
  }

  // ---------------------------------------------------------------------------
  // convert_json_to_workflow

  const WORKFLOW_KEYS: set<string> := {"name", "nodes", "connections", "settings"}

  /** The settings an import without settings receives. */
  const DEFAULT_SETTINGS: map<string, Json> :=
    map["saveExecutionProgress" := JBool(true), "saveManualExecutions" := JBool(true),
        "saveDataErrorExecution" := JStr("all"), "saveDataSuccessExecution" := JStr("all")]

  /** dict.get(key, default) */
  function DictGet(d: map<string, Json>, key: string, default: Json): Json
  {
    if key in d then d[key] else default
  }

  /** convert_json_to_workflow(json_data) */
  function Convert(d: map<string, Json>): (r: map<string, Json>)
    ensures r.Keys == WORKFLOW_KEYS
    ensures forall k :: k in WORKFLOW_KEYS && k in d ==> r[k] == d[k]
    ensures "name" !in d ==> r["name"] == JStr("Imported Workflow")
    ensures "nodes" !in d ==> r["nodes"] == JArr([])
    ensures "connections" !in d ==> r["connections"] == JObj(map[])
    ensures "settings" !in d ==> r["settings"] == JObj(DEFAULT_SETTINGS)
  {
    map["name" := DictGet(d, "name", JStr("Imported Workflow")),
        "nodes" := DictGet(d, "nodes", JArr([])),
        "connections" := DictGet(d, "connections", JObj(map[])),
        "settings" := DictGet(d, "settings", JObj(DEFAULT_SETTINGS))]
  }

  /** Normalising an already normalised definition changes nothing. */
  lemma ConvertIdempotent(d: map<string, Json>)
    ensures Convert(Convert(d)) == Convert(d)
  {
    var c := Convert(d);
    assert forall k :: k in Convert(c) <==> k in c;
  }

  /** An import that already has the four keys loses only its other keys. */
  lemma ConvertKeepsWorkflowKeys(d: map<string, Json>)
    requires WORKFLOW_KEYS <= d.Keys
    ensures Convert(d) == d - (d.Keys - WORKFLOW_KEYS)
  {
    var r, s := Convert(d), d - (d.Keys - WORKFLOW_KEYS);
    assert r.Keys == s.Keys;
    assert forall k :: k in r ==> r[k] == s[k];
  }

  /** The default settings are the schema's default settings without the execution order. */
  lemma DefaultSettingsAreSchemaDefaults()
    ensures SettingsJson(WorkflowSettings()).fields - {"executionOrder"} == DEFAULT_SETTINGS
    ensures "executionOrder" !in DEFAULT_SETTINGS
  {
    var m := SettingsJson(WorkflowSettings()).fields - {"executionOrder"};
    assert m.Keys == DEFAULT_SETTINGS.Keys;
  }

  // ---------------------------------------------------------------------------
  // get_filtered_workflows

  const MAX_LIMIT := 250

  /** The keyword filters shared by the listing and the bulk delete. */
  datatype Filters = Filters(
    active: Option<bool> := None,
    tags: Option<string> := None,
    name: Option<string> := None,
    projectId: Option<string> := None)

  /** A string argument that is neither None nor empty. */
  predicate Given(o: Option<string>)
  {
    o.Some? && o.value != ""
  }

  function Min(a: int, b: int): int
  {
    if a <= b then a else b
  }

  /** The query parameters get_filtered_workflows sends. */
  function FilterParams(f: Filters, limit: Option<int>, cursor: Json): (p: map<string, Json>)
    ensures p.Keys <= {"active", "tags", "name", "projectId", "limit", "cursor"}
    ensures "active" in p <==> f.active.Some?
    ensures f.active.Some? ==> p["active"] == JStr(if f.active.value then "true" else "false")
    ensures "tags" in p <==> Given(f.tags)
    ensures Given(f.tags) ==> p["tags"] == JStr(f.tags.value)
    ensures "name" in p <==> Given(f.name)
    ensures Given(f.name) ==> p["name"] == JStr(f.name.value)
    ensures "projectId" in p <==> Given(f.projectId)
    ensures Given(f.projectId) ==> p["projectId"] == JStr(f.projectId.value)
    ensures "limit" in p <==> limit.Some? && limit.value != 0
    ensures "limit" in p ==> p["limit"] == JNum(Min(limit.value, MAX_LIMIT)) && p["limit"].n <= MAX_LIMIT
    ensures "cursor" in p <==> Truthy(cursor)
    ensures Truthy(cursor) ==> p["cursor"] == cursor
  {
    var p0: map<string, Json> := map[];
    var p1 := if f.active.Some? then p0["active" := JStr(if f.active.value then "true" else "false")] else p0;
    var p2 := if Given(f.tags) then p1["tags" := JStr(f.tags.value)] else p1;
    var p3 := if Given(f.name) then p2["name" := JStr(f.name.value)] else p2;
    var p4 := if Given(f.projectId) then p3["projectId" := JStr(f.projectId.value)] else p3;
    var p5 := if limit.Some? && limit.value != 0 then p4["limit" := JNum(Min(limit.value, MAX_LIMIT))] else p4;
    if Truthy(cursor) then p5["cursor" := cursor] else p5
  }

  /** get_filtered_workflows: build the parameters one filter at a time, then list. */
  method GetFilteredWorkflows(rest: Rest, f: Filters, limit: Option<int>, cursor: Json, calls0: seq<Event>)
    returns (r: Result<Json, Exn>, calls: seq<Event>)
    ensures calls == calls0 + [ListWorkflows(FilterParams(f, limit, cursor))]
    ensures r == rest(calls0, ListWorkflows(FilterParams(f, limit, cursor)))
  {
    var params: map<string, Json> := map[];
    if f.active.Some? {
      params := params["active" := JStr(if f.active.value then "true" else "false")];
    }
    if Given(f.tags) {
      params := params["tags" := JStr(f.tags.value)];
    }
    if Given(f.name) {
      params := params["name" := JStr(f.name.value)];
    }
    if Given(f.projectId) {
      params := params["projectId" := JStr(f.projectId.value)];
    }
    if limit.Some? && limit.value != 0 {
      params := params["limit" := JNum(Min(limit.value, MAX_LIMIT))];
    }
    if Truthy(cursor) {
      params := params["cursor" := cursor];
    }
    var ev := ListWorkflows(params);
    r := rest(calls0, ev);
    calls := calls0 + [ev];
  }

  // ---------------------------------------------------------------------------
  // delete_all_workflows

  /** The listing request of the bulk delete: the filters, the largest page, and a cursor. */
  function ListRequest(f: Filters, cursor: Json): Event
  {
    ListWorkflows(FilterParams(f, Some(MAX_LIMIT), cursor))
  }

  /** A listed page points to a further page. */
  predicate Continues(page: Json)
  {
    page.JObj? && "nextCursor" in page.fields && Truthy(page.fields["nextCursor"])
  }

  /** The replies to the successive listing calls form a finite chain: at least one reply,
      and the last one points nowhere. */
  predicate ChainEnds(pages: seq<Result<Json, Exn>>)
  {
    |pages| > 0 && !(pages[|pages| - 1].Success? && Continues(pages[|pages| - 1].value))
  }

  /** The workflows of a listed page, as `for workflow in workflows["data"]` visits them. */
  function PageItems(page: Json): Result<seq<Json>, Exn>
  {
    match Get(page, "data")
    case Failure(e) => Failure(e)
    case Success(d) => KeyedItems(d)
  }

  /** The delete loop over one page's items, from a log and the ids deleted so far. */
  function DeleteItems(rest: Rest, log: seq<Event>, items: seq<Json>, ids: seq<Json>): (Result<seq<Json>, Exn>, seq<Event>)
    decreases |items|
  {
    if items == [] then (Success(ids), log)
    else
      match Get(items[0], "id")
      case Failure(e) => (Failure(e), log)
      case Success(id) =>
        match rest(log, DeleteWorkflow(id))
        case Failure(e) => (Failure(e), log + [DeleteWorkflow(id)])
        case Success(_) => DeleteItems(rest, log + [DeleteWorkflow(id)], items[1..], ids + [id])
  }

  /** Listing page i with the given cursor and deleting its items, then what follows. */
  function DrainFrom(rest: Rest, f: Filters, pages: seq<Result<Json, Exn>>, i: nat, cursor: Json,
                     log: seq<Event>, ids: seq<Json>): (Result<seq<Json>, Exn>, seq<Event>)
    requires ChainEnds(pages) && i < |pages|
    decreases |pages| - i, 1
  {
    var log1 := log + [ListRequest(f, cursor)];
    match pages[i]
    case Failure(e) => (Failure(e), log1)
    case Success(page) =>
      match PageItems(page)
      case Failure(e) => (Failure(e), log1)
      case Success(items) =>
        var (r, log2) := DeleteItems(rest, log1, items, ids);
        if r.Failure? then (r, log2) else DrainAfter(rest, f, pages, i, page, log2, r.value)
  }

  /** After page i has been processed: the next page if it points to one, else the ids. */
  function DrainAfter(rest: Rest, f: Filters, pages: seq<Result<Json, Exn>>, i: nat, page: Json,
                      log: seq<Event>, ids: seq<Json>): (Result<seq<Json>, Exn>, seq<Event>)
    requires ChainEnds(pages) && i < |pages| && pages[i] == Success(page)
    decreases |pages| - i, 0
  {
    if Continues(page) then DrainFrom(rest, f, pages, i + 1, page.fields["nextCursor"], log, ids)
    else (Success(ids), log)
  }

  /** The inner `for workflow in workflows["data"]` loop. */
  method DeleteListed(rest: Rest, items: seq<Json>, ids0: seq<Json>, calls0: seq<Event>)
    returns (r: Result<seq<Json>, Exn>, calls: seq<Event>)
    ensures (r, calls) == DeleteItems(rest, calls0, items, ids0)
  {
    var ids := ids0;
    calls := calls0;
    var k := 0;
    while k < |items|
      invariant 0 <= k <= |items|
      invariant DeleteItems(rest, calls0, items, ids0) == DeleteItems(rest, calls, items[k..], ids)
    {
      assert items[k..][1..] == items[k + 1..];
      var id := Get(items[k], "id");
      if id.Failure? {
        return Failure(id.error), calls;
      }
      var ev := DeleteWorkflow(id.value);
      var reply := rest(calls, ev);
      calls := calls + [ev];
      if reply.Failure? {
        return Failure(reply.error), calls;
      }
      ids := ids + [id.value];
      k := k + 1;
    }
    return Success(ids), calls;
  }

  /** delete_all_workflows: the i-th listing call is answered by pages[i]. */
  method DeleteAllWorkflows(rest: Rest, f: Filters, pages: seq<Result<Json, Exn>>, calls0: seq<Event>)
    returns (r: Result<seq<Json>, Exn>, calls: seq<Event>)
    requires ChainEnds(pages)
    ensures (r, calls) == DrainFrom(rest, f, pages, 0, JNull, calls0, [])
  {
    calls := calls0 + [ListRequest(f, JNull)];
    if pages[0].Failure? {
      return Failure(pages[0].error), calls;
    }
    var page := pages[0].value;
    var items := PageItems(page);
    if items.Failure? {
      return Failure(items.error), calls;
    }
    r, calls := DeleteListed(rest, items.value, [], calls);
    if r.Failure? {
      return;
    }
    var i := 0;
    while Continues(page)
      invariant i < |pages| && pages[i] == Success(page) && r.Success?
      invariant DrainFrom(rest, f, pages, 0, JNull, calls0, []) == DrainAfter(rest, f, pages, i, page, calls, r.value)
      decreases |pages| - i
    {
      var cursor := page.fields["nextCursor"];
      i := i + 1;
      calls := calls + [ListRequest(f, cursor)];
      if pages[i].Failure? {
        return Failure(pages[i].error), calls;
      }
      page := pages[i].value;
      items := PageItems(page);
      if items.Failure? {
        return Failure(items.error), calls;
      }
      r, calls := DeleteListed(rest, items.value, r.value, calls);
      if r.Failure? {
        return;
      }
    }
  }

  // The bulk delete when nothing fails.

  /** [item["id"] for item in items] */
  function IdsOf(items: seq<Json>): Result<seq<Json>, Exn>
  {
    if items == [] then Success([])
    else
      match Get(items[0], "id")
      case Failure(e) => Failure(e)
      case Success(id) =>
        match IdsOf(items[1..])
        case Failure(e) => Failure(e)
        case Success(rest) => Success([id] + rest)
  }

  function PageIds(page: Json): Result<seq<Json>, Exn>
  {
    match PageItems(page)
    case Failure(e) => Failure(e)
    case Success(items) => IdsOf(items)
  }

  /** One delete call per id, in order. */
  function Deletes(ids: seq<Json>): seq<Event>
  {
    if ids == [] then [] else [DeleteWorkflow(ids[0])] + Deletes(ids[1..])
  }

  /** The platform accepts every delete. */
  ghost predicate DeletesSucceed(rest: Rest)
  {
    forall h, id :: rest(h, DeleteWorkflow(id)).Success?
  }

  /** From page i on, every page the chain reaches is a page of workflows with ids. */
  ghost predicate CleanFrom(pages: seq<Result<Json, Exn>>, i: nat)
    requires ChainEnds(pages) && i < |pages|
    decreases |pages| - i
  {
    pages[i].Success? && PageIds(pages[i].value).Success? &&
    (Continues(pages[i].value) ==> CleanFrom(pages, i + 1))
  }

  /** A page that continues is not the last one, and the pages after it stay clean. */
  lemma NextPage(pages: seq<Result<Json, Exn>>, i: nat)
    requires ChainEnds(pages) && i < |pages| && CleanFrom(pages, i) && Continues(pages[i].value)
    ensures i + 1 < |pages| && CleanFrom(pages, i + 1)
  {
  }

  /** The ids of the pages the chain reaches from page i, page after page. */
  function ListedIds(pages: seq<Result<Json, Exn>>, i: nat): seq<Json>
    requires ChainEnds(pages) && i < |pages| && CleanFrom(pages, i)
    decreases |pages| - i
  {
    PageIds(pages[i].value).value + (if Continues(pages[i].value) then ListedIds(pages, i + 1) else [])
  }

  /** The calls made from page i on: a listing with the cursor of the previous page, then
      one delete per item of the page. */
  function ListedLog(f: Filters, pages: seq<Result<Json, Exn>>, i: nat, cursor: Json): seq<Event>
    requires ChainEnds(pages) && i < |pages| && CleanFrom(pages, i)
    decreases |pages| - i
  {
    [ListRequest(f, cursor)] + Deletes(PageIds(pages[i].value).value) +
    (if Continues(pages[i].value) then ListedLog(f, pages, i + 1, pages[i].value.fields["nextCursor"]) else [])
  }

  lemma {:induction false} DeleteItemsAllSucceed(rest: Rest, log: seq<Event>, items: seq<Json>, ids: seq<Json>)
    requires DeletesSucceed(rest) && IdsOf(items).Success?
    ensures DeleteItems(rest, log, items, ids) == (Success(ids + IdsOf(items).value), log + Deletes(IdsOf(items).value))
    decreases |items|
  {
    if items != [] {
      var id := Get(items[0], "id").value;
      assert rest(log, DeleteWorkflow(id)).Success?;
      DeleteItemsAllSucceed(rest, log + [DeleteWorkflow(id)], items[1..], ids + [id]);
      var tail := IdsOf(items[1..]).value;
      assert ids + [id] + tail == ids + ([id] + tail);
      assert Deletes([id] + tail) == [DeleteWorkflow(id)] + Deletes(tail) by {
        assert ([id] + tail)[1..] == tail;
      }
      assert log + [DeleteWorkflow(id)] + Deletes(tail) == log + ([DeleteWorkflow(id)] + Deletes(tail));
    } else {
      assert ids + [] == ids && log + [] == log;
    }
  }

  /** With a clean page i and every delete accepted, page i lists, deletes each of its ids
      and goes on after the page. */
  lemma DrainOnePage(rest: Rest, f: Filters, pages: seq<Result<Json, Exn>>, i: nat,
                     cursor: Json, log: seq<Event>, ids: seq<Json>)
    requires ChainEnds(pages) && i < |pages| && CleanFrom(pages, i) && DeletesSucceed(rest)
    ensures var page := pages[i].value;
            var pids := PageIds(page).value;
            DrainFrom(rest, f, pages, i, cursor, log, ids) ==
            DrainAfter(rest, f, pages, i, page, log + [ListRequest(f, cursor)] + Deletes(pids), ids + pids)
  {
    var page := pages[i].value;
    DeleteItemsAllSucceed(rest, log + [ListRequest(f, cursor)], PageItems(page).value, ids);
  }

  lemma {:induction false} DrainAllSucceed(rest: Rest, f: Filters, pages: seq<Result<Json, Exn>>, i: nat,
                                           cursor: Json, log: seq<Event>, ids: seq<Json>)
    requires ChainEnds(pages) && i < |pages| && CleanFrom(pages, i) && DeletesSucceed(rest)
    ensures DrainFrom(rest, f, pages, i, cursor, log, ids) ==
            (Success(ids + ListedIds(pages, i)), log + ListedLog(f, pages, i, cursor))
    decreases |pages| - i
  {
    var page := pages[i].value;
    var pids := PageIds(page).value;
    var log2 := log + [ListRequest(f, cursor)] + Deletes(pids);
    DrainOnePage(rest, f, pages, i, cursor, log, ids);
    if Continues(page) {
      var next := page.fields["nextCursor"];
      var restIds, restLog := ListedIds(pages, i + 1), ListedLog(f, pages, i + 1, next);
      assert ListedIds(pages, i) == pids + restIds;
      assert ListedLog(f, pages, i, cursor) == [ListRequest(f, cursor)] + Deletes(pids) + restLog;
      DrainAllSucceed(rest, f, pages, i + 1, next, log2, ids + pids);
      Assoc(ids, pids, restIds);
      Regroup(log, [ListRequest(f, cursor)], Deletes(pids), restLog);
    } else {
      DropEmpty(ids, [], pids);
      DropEmpty(log, [ListRequest(f, cursor)], Deletes(pids));
    }
  }

  lemma NoTail<T>(a: seq<T>)
    ensures a + [] == a
  {
  }

  lemma Assoc<T>(a: seq<T>, b: seq<T>, c: seq<T>)
    ensures a + b + c == a + (b + c)
  {
  }

  lemma Regroup<T>(a: seq<T>, b: seq<T>, c: seq<T>, d: seq<T>)
    ensures a + b + c + d == a + (b + c + d)
  {
  }

  lemma DropEmpty<T>(a: seq<T>, b: seq<T>, c: seq<T>)
    ensures a + (b + c + []) == a + b + c
    ensures a + (c + []) == a + c
  {
  }

  /** When every page is well formed and every delete is accepted, the result is the
      concatenation of every page's ids in page order, and the calls are, page after page,
      one listing and then one delete per item. */
  lemma DeleteAllCollectsEveryPage(rest: Rest, f: Filters, pages: seq<Result<Json, Exn>>, calls0: seq<Event>)
    requires ChainEnds(pages) && CleanFrom(pages, 0) && DeletesSucceed(rest)
    ensures DrainFrom(rest, f, pages, 0, JNull, calls0, []) ==
            (Success(ListedIds(pages, 0)), calls0 + ListedLog(f, pages, 0, JNull))
  {
    DrainAllSucceed(rest, f, pages, 0, JNull, calls0, []);
    assert [] + ListedIds(pages, 0) == ListedIds(pages, 0);
  }

  /** The ids of the delete calls in a log, in order. */
  function DeletedIn(log: seq<Event>): seq<Json>
  {
    if log == [] then [] else (if log[0].DeleteWorkflow? then [log[0].id] else []) + DeletedIn(log[1..])
  }

  /** The number of listing calls in a log. */
  function ListingsIn(log: seq<Event>): nat
  {
    if log == [] then 0 else (if log[0].ListWorkflows? then 1 else 0) + ListingsIn(log[1..])
  }

  /** The number of pages the chain reaches from page i. */
  function PagesReached(pages: seq<Result<Json, Exn>>, i: nat): nat
    requires ChainEnds(pages) && i < |pages| && CleanFrom(pages, i)
    decreases |pages| - i
  {
    1 + (if Continues(pages[i].value) then PagesReached(pages, i + 1) else 0)
  }

  lemma {:induction false} DeletedInAppend(a: seq<Event>, b: seq<Event>)
    ensures DeletedIn(a + b) == DeletedIn(a) + DeletedIn(b)
  {
    if a == [] {
      assert a + b == b;
    } else {
      var h := if a[0].DeleteWorkflow? then [a[0].id] else [];
      assert (a + b)[0] == a[0] && (a + b)[1..] == a[1..] + b;
      assert DeletedIn(a + b) == h + DeletedIn(a[1..] + b);
      DeletedInAppend(a[1..], b);
      assert h + (DeletedIn(a[1..]) + DeletedIn(b)) == (h + DeletedIn(a[1..])) + DeletedIn(b);
    }
  }

  lemma {:induction false} ListingsInAppend(a: seq<Event>, b: seq<Event>)
    ensures ListingsIn(a + b) == ListingsIn(a) + ListingsIn(b)
  {
    if a == [] {
      assert a + b == b;
    } else {
      assert (a + b)[0] == a[0] && (a + b)[1..] == a[1..] + b;
      ListingsInAppend(a[1..], b);
    }
  }

  lemma LogCountsAppend(a: seq<Event>, b: seq<Event>)
    ensures DeletedIn(a + b) == DeletedIn(a) + DeletedIn(b)
    ensures ListingsIn(a + b) == ListingsIn(a) + ListingsIn(b)
  {
    DeletedInAppend(a, b);
    ListingsInAppend(a, b);
  }

  lemma {:induction false} DeletesCounts(ids: seq<Json>)
    ensures DeletedIn(Deletes(ids)) == ids && ListingsIn(Deletes(ids)) == 0
  {
    if ids != [] {
      DeletesCounts(ids[1..]);
      LogCountsAppend([DeleteWorkflow(ids[0])], Deletes(ids[1..]));
      assert [ids[0]] + ids[1..] == ids;
    }
  }

  /** Exactly one delete per returned id, in the same order, and exactly one listing per page
      reached. */
  lemma ListedLogCounts(f: Filters, pages: seq<Result<Json, Exn>>, i: nat, cursor: Json)
    requires ChainEnds(pages) && i < |pages| && CleanFrom(pages, i)
    ensures DeletedIn(ListedLog(f, pages, i, cursor)) == ListedIds(pages, i)
    ensures ListingsIn(ListedLog(f, pages, i, cursor)) == PagesReached(pages, i)
  {
    ListedLogDeletes(f, pages, i, cursor);
    ListedLogListings(f, pages, i, cursor);
  }

  /** One page's share of the log: its listing, then its deletes. */
  lemma PageCounts(f: Filters, cursor: Json, pids: seq<Json>)
    ensures DeletedIn([ListRequest(f, cursor)] + Deletes(pids)) == pids
    ensures ListingsIn([ListRequest(f, cursor)] + Deletes(pids)) == 1
  {
    DeletesCounts(pids);
    LogCountsAppend([ListRequest(f, cursor)], Deletes(pids));
    assert DeletedIn([ListRequest(f, cursor)]) == [] && ListingsIn([ListRequest(f, cursor)]) == 1;
  }

  lemma {:induction false} ListedLogDeletes(f: Filters, pages: seq<Result<Json, Exn>>, i: nat, cursor: Json)
    requires ChainEnds(pages) && i < |pages| && CleanFrom(pages, i)
    ensures DeletedIn(ListedLog(f, pages, i, cursor)) == ListedIds(pages, i)
    decreases |pages| - i
  {
    var pids := PageIds(pages[i].value).value;
    var head := [ListRequest(f, cursor)] + Deletes(pids);
    PageCounts(f, cursor, pids);
    if Continues(pages[i].value) {
      NextPage(pages, i);
      var more := ListedLog(f, pages, i + 1, pages[i].value.fields["nextCursor"]);
      ListedLogDeletes(f, pages, i + 1, pages[i].value.fields["nextCursor"]);
      DeletedInAppend(head, more);
      assert ListedLog(f, pages, i, cursor) == head + more;
    } else {
      NoTail(head);
      NoTail(pids);
      assert ListedLog(f, pages, i, cursor) == head;
    }
  }

  lemma {:induction false} ListedLogListings(f: Filters, pages: seq<Result<Json, Exn>>, i: nat, cursor: Json)
    requires ChainEnds(pages) && i < |pages| && CleanFrom(pages, i)
    ensures ListingsIn(ListedLog(f, pages, i, cursor)) == PagesReached(pages, i)
    decreases |pages| - i
  {
    var pids := PageIds(pages[i].value).value;
    var head := [ListRequest(f, cursor)] + Deletes(pids);
    PageCounts(f, cursor, pids);
    if Continues(pages[i].value) {
      NextPage(pages, i);
      var more := ListedLog(f, pages, i + 1, pages[i].value.fields["nextCursor"]);
      ListedLogListings(f, pages, i + 1, pages[i].value.fields["nextCursor"]);
      ListingsInAppend(head, more);
      assert ListedLog(f, pages, i, cursor) == head + more;
    } else {
      NoTail(head);
      assert ListedLog(f, pages, i, cursor) == head;
    }
  }

  /** Every listing the bulk delete makes repeats the same filters with the largest page
      size. */
  lemma {:induction false} ListedLogFilters(f: Filters, pages: seq<Result<Json, Exn>>, i: nat, cursor: Json, e: Event)
    requires ChainEnds(pages) && i < |pages| && CleanFrom(pages, i)
    requires e in ListedLog(f, pages, i, cursor) && e.ListWorkflows?
    ensures e.params - {"cursor"} == FilterParams(f, Some(MAX_LIMIT), JNull)
    ensures e.params["limit"] == JNum(MAX_LIMIT)
    decreases |pages| - i
  {
    var pids := PageIds(pages[i].value).value;
    DeletesOnly(pids, e);
    if e == ListRequest(f, cursor) {
      ListRequestFilters(f, cursor);
    } else if Continues(pages[i].value) {
      ListedLogFilters(f, pages, i + 1, pages[i].value.fields["nextCursor"], e);
    }
  }

  lemma {:induction false} DeletesOnly(ids: seq<Json>, e: Event)
    ensures e in Deletes(ids) ==> e.DeleteWorkflow?
  {
    if ids != [] {
      DeletesOnly(ids[1..], e);
    }
  }

  /** Every listing of the bulk delete carries the same filters and a limit of 250; only the
      cursor differs. */
  lemma ListRequestFilters(f: Filters, cursor: Json)
    ensures ListRequest(f, cursor).params - {"cursor"} == FilterParams(f, Some(MAX_LIMIT), JNull)
    ensures ListRequest(f, cursor).params["limit"] == JNum(MAX_LIMIT)
  {
    var a, b := ListRequest(f, cursor).params - {"cursor"}, FilterParams(f, Some(MAX_LIMIT), JNull);
    assert a.Keys == b.Keys;
  }

  /** An empty first page without a cursor: one listing, no delete, no ids. */
  lemma DeleteAllEmptyFirstPage(rest: Rest, f: Filters, pages: seq<Result<Json, Exn>>, calls0: seq<Event>)
    requires ChainEnds(pages) && pages[0].Success? && PageItems(pages[0].value) == Success([])
    requires !Continues(pages[0].value)
    ensures DrainFrom(rest, f, pages, 0, JNull, calls0, []) == (Success([]), calls0 + [ListRequest(f, JNull)])
  {
  }

  // ---------------------------------------------------------------------------
  // create_workflow, activate_workflow, deactivate_workflow

  /** The request create_workflow sends: the normalised definition. */
  function CreateRequest(jsonData: map<string, Json>): Event
  {
    CreateWorkflow(Convert(jsonData))
  }

  /** What create_workflow returns, given the platform's reply to the request. The webhook
      ids are collected before the reply is written to, so their error comes first. */
  function CreateResponse(reply: Result<Json, Exn>, jsonData: map<string, Json>, isWebhook: bool): (r: Result<Json, Exn>)
    ensures reply.Failure? ==> r == reply
    ensures !isWebhook ==> r == reply
    ensures r.Success? && isWebhook ==>
              reply.Success? && reply.value.JObj? && WebhookIdsOf(JObj(jsonData)).Success? &&
              r == Success(JObj(reply.value.fields["webhookIDs" := JArr(WebhookIdsOf(JObj(jsonData)).value)]))
    // a successful reply to a webhook workflow's creation is returned exactly when it is an
    // object and the webhook ids could be collected; a failed collection raises its error
    ensures isWebhook && reply.Success? ==>
              (r.Success? <==> reply.value.JObj? && WebhookIdsOf(JObj(jsonData)).Success?)
    ensures isWebhook && reply.Success? && WebhookIdsOf(JObj(jsonData)).Failure? ==>
              r == Failure(WebhookIdsOf(JObj(jsonData)).error)
  {
    match reply
    case Failure(e) => Failure(e)
    case Success(w) =>
      if !isWebhook then Success(w)
      else match WebhookIdsOf(JObj(jsonData))
        case Failure(e) => Failure(e)
        case Success(ids) =>
          match w
          case JObj(m) => Success(JObj(m["webhookIDs" := JArr(ids)]))
          case JArr(_) => Failure(TypeError("list indices must be integers or slices, not str"))
          case _ => Failure(TypeError("'" + TypeName(w) + "' object does not support item assignment"))
  }

  /** The webhook ids come from the definition as given, not from the normalised body that was
      sent: a definition without "nodes" is sent with an empty node list, and its creation
      still fails afterwards with KeyError 'nodes'. */
  lemma CreateWithoutNodes(reply: Result<Json, Exn>, jsonData: map<string, Json>)
    requires reply.Success? && "nodes" !in jsonData
    ensures CreateRequest(jsonData).body["nodes"] == JArr([])
    ensures CreateResponse(reply, jsonData, true) == Failure(KeyError("nodes"))
  {
  }

  /** response.json()["active"] of the activate and deactivate calls. */
  function ActiveOf(reply: Result<Json, Exn>): (r: Result<Json, Exn>)
    ensures r.Success? <==> reply.Success? && reply.value.JObj? && "active" in reply.value.fields
    ensures r.Success? ==> r.value == reply.value.fields["active"]
    ensures reply.Failure? ==> r == reply
    ensures reply.Success? && reply.value.JObj? && "active" !in reply.value.fields ==> r == Failure(KeyError("active"))
  {
    match reply
    case Failure(e) => Failure(e)
    case Success(body) => Get(body, "active")
  }
}
