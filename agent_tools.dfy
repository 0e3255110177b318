/** The part of claude_agent.py that turns the engine's requests into
    MCP calls: the clients the agent holds, the tool menu it offers,
    the fixed routing table with its argument adaptation, and
    execute_tool's mapping of outcomes to payloads. */
module AgentTools {
  import opened Values
  import opened McpSdk

  /** self.mcp_clients: client key to (port, service name).  It is only
      read after the constructor fills it. */
  const McpClients: map<string, (int, string)> := map[
    "crossref" := (6000, "Crossref"),
    "bioc" := (6001, "BioC"),
    "deep_research" := (6002, "DeepResearch"),
    "arxiv_abstract" := (6003, "Arxiv Abstract"),
    "openlibrary" := (6004, "OpenLibrary"),
    "entrez" := (6005, "Entrez"),
    "arxiv_id" := (6006, "Arxiv ID"),
    "arxiv_title" := (6007, "Arxiv Title")]

  /** The endpoint the client under `key` connects to. */
  function ClientUrl(key: string): string
    requires key in McpClients
  {
    BaseUrl(McpClients[key].0)
  }

  /** No two clients share an endpoint. */
  lemma ClientUrlsDistinct(k1: string, k2: string)
    requires k1 in McpClients && k2 in McpClients && k1 != k2
    ensures ClientUrl(k1) != ClientUrl(k2)
  {
    BaseUrlInjective(McpClients[k1].0, McpClients[k2].0);
  }

  // ---- The menu (get_tool_definitions) --------------------------------

  datatype ParamType = StringParam | IntegerParam

  /** One property of a tool's input schema.  `choices` is the schema's
      "enum" (empty when there is none). */
  datatype Param = Param(name: string, kind: ParamType, default: Option<int>, choices: seq<string>)

  /** One menu entry: the name the engine calls it by, its properties and
      the required ones. */
  datatype ToolDef = ToolDef(name: string, params: seq<Param>, required: seq<string>)

  function ToolDefinitions(): (defs: seq<ToolDef>)
    ensures |defs| == 8
    ensures forall i, j :: 0 <= i < j < |defs| ==> defs[i].name != defs[j].name
  {
    [ ToolDef("crossref_search",
        [Param("query", StringParam, None, []), Param("rows", IntegerParam, Some(5), [])],
        ["query"]),
      ToolDef("bioc_get_article",
        [Param("id", StringParam, None, [])],
        ["id"]),
      ToolDef("deep_research",
        [Param("searchQuery", StringParam, None, []), Param("count", IntegerParam, Some(10), [])],
        ["searchQuery"]),
      ToolDef("arxiv_search_by_abstract",
        [Param("key", StringParam, None, []), Param("pageSize", IntegerParam, Some(10), [])],
        ["key"]),
      ToolDef("openlibrary_search",
        [Param("query", StringParam, None, []), Param("limit", IntegerParam, Some(5), [])],
        ["query"]),
      ToolDef("entrez_search",
        [Param("db", StringParam, None, ["pubmed", "pmc", "nucleotide", "protein", "gene"]),
         Param("term", StringParam, None, []),
         Param("retmax", IntegerParam, Some(10), [])],
        ["db", "term"]),
      ToolDef("arxiv_search_by_id",
        [Param("key", StringParam, None, [])],
        ["key"]),
      ToolDef("arxiv_search_by_title",
        [Param("key", StringParam, None, [])],
        ["key"]) ]
  }

  // ---- The routing table (the if/elif chain of execute_tool) ----------

  /** Where one logical tool goes: the client, the remote tool name, the
      input keys copied verbatim (read with tool_input[k], in this order),
      and the optional key filled with tool_input.get(k, default). */
  datatype Route = Route(clientKey: string, remoteTool: string,
                         required: seq<string>, optional: Option<(string, int)>)

  function RouteOf(name: string): (r: Option<Route>)
    ensures r.Some? ==> r.value.clientKey in McpClients
  {
    if name == "crossref_search" then
      Some(Route("crossref", "search_works", ["query"], Some(("rows", 5))))
    else if name == "bioc_get_article" then
      Some(Route("bioc", "get_article_info", ["id"], None))
    else if name == "deep_research" then
      Some(Route("deep_research", "DeepResearch", ["searchQuery"], Some(("count", 10))))
    else if name == "arxiv_search_by_abstract" then
      Some(Route("arxiv_abstract", "searchArxivByAbstract", ["key"], Some(("pageSize", 10))))
    else if name == "openlibrary_search" then
      Some(Route("openlibrary", "searchBooks", ["query"], Some(("limit", 5))))
    else if name == "entrez_search" then
      Some(Route("entrez", "ESearch", ["db", "term"], Some(("retmax", 10))))
    else if name == "arxiv_search_by_id" then
      Some(Route("arxiv_id", "SearchByArxivNo", ["key"], None))
    else if name == "arxiv_search_by_title" then
      Some(Route("arxiv_title", "searchArxivByTitle", ["key"], None))
    else None
  }

  function ParamNames(ps: seq<Param>): seq<string> {
    if |ps| == 0 then [] else [ps[0].name] + ParamNames(ps[1..])
  }

  function ParamDefaults(ps: seq<Param>): seq<Option<int>> {
    if |ps| == 0 then [] else [ps[0].default] + ParamDefaults(ps[1..])
  }

  function NoDefaults(n: nat): seq<Option<int>> {
    if n == 0 then [] else [None] + NoDefaults(n - 1)
  }

  /** The keys a route sends, in the order the argument dictionary
      lists them, and the default each one gets when absent. */
  function RouteKeys(r: Route): seq<string> {
    r.required + (if r.optional.Some? then [r.optional.value.0] else [])
  }

  function RouteDefaults(r: Route): seq<Option<int>> {
    NoDefaults(|r.required|) + (if r.optional.Some? then [Some(r.optional.value.1)] else [])
  }

  /** A menu entry and a route agree: the same required keys, the schema
      lists exactly the keys the route sends, in the same order, and the
      schema's defaults are the ones the route fills in (none for the
      required keys). */
  predicate Agrees(d: ToolDef, r: Route) {
    d.required == r.required &&
    ParamNames(d.params) == RouteKeys(r) &&
    ParamDefaults(d.params) == RouteDefaults(r)
  }

  /** Every name the routing table accepts is on the menu. */
  lemma RoutedNamesAreOffered(name: string)
    requires RouteOf(name).Some?
    ensures exists d :: d in ToolDefinitions() && d.name == name
  {
    var defs := ToolDefinitions();
    var i := if name == "crossref_search" then 0
      else if name == "bioc_get_article" then 1
      else if name == "deep_research" then 2
      else if name == "arxiv_search_by_abstract" then 3
      else if name == "openlibrary_search" then 4
      else if name == "entrez_search" then 5
      else if name == "arxiv_search_by_id" then 6
      else 7;
    assert defs[i] in defs && defs[i].name == name;
  }

  /** Menu entry i is routed, and its schema agrees with its route. */
  lemma EntryAgrees(i: nat)
    requires i < |ToolDefinitions()|
    ensures var d := ToolDefinitions()[i];
            RouteOf(d.name).Some? && Agrees(d, RouteOf(d.name).value)
  {
    assert NoDefaults(1) == [None];
    assert NoDefaults(2) == [None, None];
    var d := ToolDefinitions()[i];
    if i < 4 {
      if i == 0 { assert d.name == "crossref_search"; }
      else if i == 1 { assert d.name == "bioc_get_article"; }
      else if i == 2 { assert d.name == "deep_research"; }
      else { assert d.name == "arxiv_search_by_abstract"; }
    } else {
      if i == 4 { assert d.name == "openlibrary_search"; }
      else if i == 5 { assert d.name == "entrez_search"; }
      else if i == 6 { assert d.name == "arxiv_search_by_id"; }
      else { assert d.name == "arxiv_search_by_title"; }
    }
  }

  /** Every menu entry is routed, and its schema agrees with its route. */
  lemma OfferedNamesAreRouted(d: ToolDef)
    requires d in ToolDefinitions()
    ensures RouteOf(d.name).Some? && Agrees(d, RouteOf(d.name).value)
  {
    var defs := ToolDefinitions();
    var i :| 0 <= i < |defs| && defs[i] == d;
    EntryAgrees(i);
  }

  /** The routing table is total over the menu and covers nothing else. */
  lemma MenuMatchesRouting(name: string)
    ensures RouteOf(name).Some? <==> exists d :: d in ToolDefinitions() && d.name == name
  {
    if RouteOf(name).Some? {
      RoutedNamesAreOffered(name);
    } else if exists d :: d in ToolDefinitions() && d.name == name {
      var d :| d in ToolDefinitions() && d.name == name;
      OfferedNamesAreRouted(d);
    }
  }

  // ---- Argument adaptation ---------------------------------------------

  /** The first key of `keys` missing from `input`: the KeyError Python
      raises while it builds the argument dictionary left to right. */
  function FirstMissing(keys: seq<string>, input: Args): (m: Option<string>)
    ensures m.None? <==> forall k :: k in keys ==> k in input
    ensures m.Some? ==> m.value in keys && m.value !in input
    ensures m.Some? ==> exists i :: 0 <= i < |keys| && keys[i] == m.value &&
                                    forall j :: 0 <= j < i ==> keys[j] in input
  {
    if |keys| == 0 then None
    else if keys[0] !in input then Some(keys[0])
    else
      var rest := FirstMissing(keys[1..], input);
      assert forall k :: k in keys ==> k == keys[0] || k in keys[1..];
      if rest.Some? then
        var i :| 0 <= i < |keys[1..]| && keys[1..][i] == rest.value &&
                 forall j :: 0 <= j < i ==> keys[1..][j] in input;
        assert keys[i + 1] == rest.value;
        assert forall j :: 0 <= j < i + 1 ==> keys[j] == keys[0] || keys[j] == keys[1..][j - 1];
        rest
      else rest
  }

  /** The argument dictionary handed to the remote tool. */
  function AdaptedArgs(route: Route, input: Args): Args
    requires forall k :: k in route.required ==> k in input
  {
    var copied := map k | k in route.required :: input[k];
    match route.optional
    case None => copied
    case Some((k, default)) => copied[k := if k in input then input[k] else VInt(default)]
  }

  /** Adaptation copies every required key verbatim, passes a supplied
      optional value through unchanged and fills in the default when it
      is absent, and adds no other key. */
  lemma AdaptedArgsContents(name: string, input: Args)
    requires RouteOf(name).Some?
    requires forall k :: k in RouteOf(name).value.required ==> k in input
    ensures var route := RouteOf(name).value;
            var args := AdaptedArgs(route, input);
            (forall k :: k in args <==> k in route.required ||
                                        (route.optional.Some? && k == route.optional.value.0)) &&
            (forall k :: k in route.required ==> args[k] == input[k]) &&
            (route.optional.Some? ==>
               var (k, default) := route.optional.value;
               args[k] == if k in input then input[k] else VInt(default))
  {
    var route := RouteOf(name).value;
    assert route.optional.Some? ==> route.optional.value.0 !in route.required;
  }

  // ---- execute_tool ----------------------------------------------------

  const UnknownToolPrefix: string := "未知工具: "
  const NoDataMessage: string := "未获取到数据"

  /** str(e) for the KeyError of a missing string key: the key's repr. */
  function KeyErrorText(key: string): string {
    "'" + key + "'"
  }

  /** The value execute_tool serialises with json.dumps for a request to
      `name` with `input`.  It never raises: an unknown name, a missing
      required key and an empty result each become an error object. */
  function ExecuteTool(name: string, input: Args, net: string -> Server,
                       loads: string -> Loaded): (payload: Value)
    ensures RouteOf(name).None? ==> payload == ErrorObject(UnknownToolPrefix + name)
    ensures RouteOf(name).Some? && FirstMissing(RouteOf(name).value.required, input).Some? ==>
            payload == ErrorObject(KeyErrorText(FirstMissing(RouteOf(name).value.required, input).value))
    ensures RouteOf(name).Some? && FirstMissing(RouteOf(name).value.required, input).None? ==>
            var route := RouteOf(name).value;
            var result := CallToolResult(net(ClientUrl(route.clientKey)), route.remoteTool,
                                         AdaptedArgs(route, input), loads);
            (Truthy(result) ==> payload == result) &&
            (!Truthy(result) ==> payload == ErrorObject(NoDataMessage))
  {
    match RouteOf(name)
    case None => ErrorObject(UnknownToolPrefix + name)
    case Some(route) =>
      match FirstMissing(route.required, input)
      case Some(key) => ErrorObject(KeyErrorText(key))
      case None =>
        var result := CallToolResult(net(ClientUrl(route.clientKey)), route.remoteTool,
                                     AdaptedArgs(route, input), loads);
        if Truthy(result) then result else ErrorObject(NoDataMessage)
  }

  /** An unknown name or a missing required key is answered before any
      client is used: the payload does not depend on the network or on
      json.loads at all. */
  lemma NoCallBeforeRouting(name: string, input: Args,
                            net1: string -> Server, loads1: string -> Loaded,
                            net2: string -> Server, loads2: string -> Loaded)
    requires RouteOf(name).None? || FirstMissing(RouteOf(name).value.required, input).Some?
    ensures ExecuteTool(name, input, net1, loads1) == ExecuteTool(name, input, net2, loads2)
  {
  }

  /** A routed call contacts exactly one service: whatever the network
      answers at every other endpoint, the payload stays the same. */
  lemma OneEndpointPerTool(name: string, input: Args, loads: string -> Loaded,
                           net: string -> Server, other: string -> Server)
    requires RouteOf(name).Some?
    ensures var url := ClientUrl(RouteOf(name).value.clientKey);
            ExecuteTool(name, input, net, loads) ==
            ExecuteTool(name, input, u => if u == url then net(u) else other(u), loads)
  {
  }

  /** The engine is never handed an empty payload: either the truthy
      result itself or one of the error objects. */
  lemma PayloadTruthy(name: string, input: Args, net: string -> Server, loads: string -> Loaded)
    ensures Truthy(ExecuteTool(name, input, net, loads))
  {
  }
}
