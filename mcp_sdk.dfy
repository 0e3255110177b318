/** The result-normalising tool client of mcp_sdk.py (GiiispMCPClient).
    The SSE transport and the MCP session are a Server value: whether
    each stage succeeds, the discovered tool names, and the content the
    remote tool answers with.  json.loads is the parameter `loads`. */
module McpSdk {
  import opened Values
  import opened Sequences
  import opened PyText

  const UrlPrefix: string := "http://giiisp.com:"
  const UrlSuffix: string := "/sse"

  /** The endpoint of the service listening on `port`. */
  function BaseUrl(port: int): string {
    UrlPrefix + IntToString(port) + UrlSuffix
  }

  /** Reads the port back out of an endpoint URL. */
  function PortOfUrl(url: string): Option<int> {
    if |url| >= |UrlPrefix| + |UrlSuffix| && url[..|UrlPrefix|] == UrlPrefix
       && url[|url| - |UrlSuffix|..] == UrlSuffix
    then ParseInt(url[|UrlPrefix|..|url| - |UrlSuffix|])
    else None
  }

  /** The port can be recovered from the endpoint, so distinct ports give
      distinct endpoints. */
  lemma BaseUrlRoundTrip(port: int)
    ensures PortOfUrl(BaseUrl(port)) == Some(port)
  {
    var url := BaseUrl(port);
    var digits := IntToString(port);
    assert url[..|UrlPrefix|] == UrlPrefix;
    assert url[|url| - |UrlSuffix|..] == UrlSuffix;
    assert url[|UrlPrefix|..|url| - |UrlSuffix|] == digits;
    IntToStringRoundTrip(port);
  }

  lemma BaseUrlInjective(p: int, q: int)
    ensures BaseUrl(p) == BaseUrl(q) ==> p == q
  {
    BaseUrlRoundTrip(p);
    BaseUrlRoundTrip(q);
  }

  /** One content item of a call_tool response; only `type == "text"`
      items carry text the client reads. */
  datatype ContentItem = Text(text: string) | NonText(kind: string)

  predicate IsText(c: ContentItem) { c.Text? }

  /** What json.loads does with one text: a value, a JSONDecodeError
      (caught per item), or any other exception (RecursionError and the
      like), which only the outer `except Exception` catches. */
  datatype Loaded = Parsed(value: Value) | DecodeError | OtherError

  predicate LoadFails(loads: string -> Loaded, c: ContentItem) {
    c.Text? && loads(c.text).OtherError?
  }

  /** The remote service reached at one endpoint.  `reachable`: the SSE
      connection and the ClientSession open; `initialises`: initialize()
      returns; `tools`: the names list_tools() reports, None when it
      raises; `respond`: the content call_tool answers, None when it raises. */
  datatype Server = Server(
    reachable: bool,
    initialises: bool,
    tools: Option<seq<string>>,
    respond: (string, Args) -> Option<seq<ContentItem>>)

  /** session.call_tool is reached exactly when every earlier stage
      succeeded and the name is among the discovered names (exact,
      case-sensitive comparison). */
  predicate Invokes(server: Server, toolName: string) {
    server.reachable && server.initialises && server.tools.Some? &&
    toolName in server.tools.value
  }

  /** The entry one text item contributes: the parsed value, or the raw
      text when it is not JSON. */
  function Entry(loads: string -> Loaded, c: ContentItem): Value
    requires IsText(c) && !LoadFails(loads, c)
  {
    match loads(c.text)
    case Parsed(v) => v
    case DecodeError => VStr(c.text)
  }

  /** final_data after the loop over `items`, or None when json.loads
      raised something other than JSONDecodeError. */
  function Extracted(items: seq<ContentItem>, loads: string -> Loaded): Option<seq<Value>>
    decreases |items|
  {
    if |items| == 0 then Some([])
    else match Extracted(items[..|items| - 1], loads)
      case None => None
      case Some(data) =>
        match items[|items| - 1]
        case NonText(_) => Some(data)
        case Text(t) =>
          match loads(t)
          case Parsed(v) => Some(data + [v])
          case DecodeError => Some(data + [VStr(t)])
          case OtherError => None
  }

  /** No data is None, one entry is that entry, more is the list. */
  function Collapse(data: seq<Value>): Value {
    if |data| == 0 then VNone
    else if |data| == 1 then data[0]
    else VList(data)
  }

  /** What call_tool returns against `server`.  Every failing stage gives
      None, and so does a name that was not discovered. */
  function CallToolResult(server: Server, toolName: string, args: Args,
                          loads: string -> Loaded): (r: Value)
    ensures !Invokes(server, toolName) ==> r == VNone
    ensures Invokes(server, toolName) && server.respond(toolName, args).None? ==> r == VNone
  {
    if !Invokes(server, toolName) then VNone
    else match server.respond(toolName, args)
      case None => VNone
      case Some(items) =>
        match Extracted(items, loads)
        case None => VNone
        case Some(data) => Collapse(data)
  }

  /** The loop aborts exactly when some text item makes json.loads raise
      something other than a decode error. */
  lemma {:induction false} ExtractedFails(items: seq<ContentItem>, loads: string -> Loaded)
    ensures Extracted(items, loads).None? <==>
            exists i :: 0 <= i < |items| && LoadFails(loads, items[i])
    decreases |items|
  {
    if |items| > 0 {
      var n := |items|;
      var prefix := items[..n - 1];
      ExtractedFails(prefix, loads);
      assert forall i :: 0 <= i < n - 1 ==> prefix[i] == items[i];
      if Extracted(prefix, loads).None? {
        var i :| 0 <= i < n - 1 && LoadFails(loads, prefix[i]);
        assert LoadFails(loads, items[i]);
      } else if !LoadFails(loads, items[n - 1]) {
        forall i | 0 <= i < n
          ensures !LoadFails(loads, items[i])
        {
          if i < n - 1 {
            assert !LoadFails(loads, prefix[i]);
          }
        }
      }
    }
  }

  /** final_data has one entry per text item, in response order: entry k
      comes from the k-th text item, parsed when it is JSON and the raw
      text otherwise; non-text items contribute nothing. */
  lemma {:induction false} ExtractedEntries(items: seq<ContentItem>, loads: string -> Loaded)
    requires forall i :: 0 <= i < |items| ==> !LoadFails(loads, items[i])
    ensures Extracted(items, loads).Some?
    ensures var data := Extracted(items, loads).value;
            var pos := Positions(items, IsText);
            |data| == |pos| &&
            forall k :: 0 <= k < |pos| ==>
              IsText(items[pos[k]]) && data[k] == Entry(loads, items[pos[k]])
    decreases |items|
  {
    if |items| > 0 {
      var n := |items|;
      var prefix := items[..n - 1];
      assert forall i :: 0 <= i < n - 1 ==> prefix[i] == items[i];
      ExtractedEntries(prefix, loads);
      PositionsSnoc(items, IsText);
      var pre := Positions(prefix, IsText);
      var pos := Positions(items, IsText);
      var data := Extracted(prefix, loads).value;
      var full := Extracted(items, loads).value;
      assert full == data + (if IsText(items[n - 1]) then [Entry(loads, items[n - 1])] else []);
      forall k | 0 <= k < |pos|
        ensures IsText(items[pos[k]]) && full[k] == Entry(loads, items[pos[k]])
      {
        if k < |pre| {
          assert items[pos[k]] == prefix[pre[k]];
        }
      }
    }
  }

  /** The value call_tool returns once the remote tool answered `items`:
      None if a text item made json.loads fail; otherwise None for no text
      item, the single entry itself for one, and the whole list of entries
      in response order for two or more. */
  lemma CallToolOutcome(server: Server, toolName: string, args: Args,
                        loads: string -> Loaded, items: seq<ContentItem>)
    requires Invokes(server, toolName)
    requires server.respond(toolName, args) == Some(items)
    ensures (exists i :: 0 <= i < |items| && LoadFails(loads, items[i])) ==>
            CallToolResult(server, toolName, args, loads) == VNone
    ensures (forall i :: 0 <= i < |items| ==> !LoadFails(loads, items[i])) ==>
            var pos := Positions(items, IsText);
            var r := CallToolResult(server, toolName, args, loads);
            (|pos| == 0 ==> r == VNone) &&
            (|pos| == 1 ==> r == Entry(loads, items[pos[0]])) &&
            (|pos| >= 2 ==>
               (r.VList? && |r.items| == |pos| &&
                forall k :: 0 <= k < |pos| ==> r.items[k] == Entry(loads, items[pos[k]])))
  {
    ExtractedFails(items, loads);
    if forall i :: 0 <= i < |items| ==> !LoadFails(loads, items[i]) {
      ExtractedEntries(items, loads);
    }
  }

  /** Discovery lists "search_works" and "SearchWorks" is requested: the
      comparison is exact, so the tool is not called and None comes back. */
  lemma CaseMismatchNotFound(respond: (string, Args) -> Option<seq<ContentItem>>,
                             args: Args, loads: string -> Loaded)
    ensures var server := Server(true, true, Some(["search_works"]), respond);
            !Invokes(server, "SearchWorks") &&
            CallToolResult(server, "SearchWorks", args, loads) == VNone
  {
    var server := Server(true, true, Some(["search_works"]), respond);
    assert "SearchWorks" != "search_works";
  }

  /** Two text items, the first JSON and the second plain text, give a
      two-element list in response order: the parsed value, then the raw
      text. */
  lemma TwoTextItems(server: Server, toolName: string, args: Args, loads: string -> Loaded,
                     json: string, plain: string, v: Value)
    requires Invokes(server, toolName)
    requires server.respond(toolName, args) == Some([Text(json), NonText("image"), Text(plain)])
    requires loads(json) == Parsed(v) && loads(plain) == DecodeError
    ensures CallToolResult(server, toolName, args, loads) == VList([v, VStr(plain)])
  {
    var items := [Text(json), NonText("image"), Text(plain)];
    var one := [Text(json)];
    var two := [Text(json), NonText("image")];
    assert one[..0] == [];
    assert Extracted(one[..0], loads) == Some([]);
    assert one[|one| - 1] == Text(json);
    assert [] + [v] == [v];
    assert Extracted(one, loads) == Some([v]);
    assert two[..1] == one;
    assert Extracted(two, loads) == Some([v]);
    assert items[..|items| - 1] == two;
    assert items[|items| - 1] == Text(plain);
    assert [v] + [VStr(plain)] == [v, VStr(plain)];
    assert Extracted(items, loads) == Some([v, VStr(plain)]);
  }

  /** A client bound to one service.  Its fields never change after
      construction. */
  class GiiispMCPClient {
    const port: int
    const serviceName: string
    const baseUrl: string

    constructor (port: int, serviceName: string := "Unknown")
      ensures this.port == port && this.serviceName == serviceName
      ensures baseUrl == UrlPrefix + IntToString(port) + UrlSuffix
    {
      this.port := port;
      this.serviceName := serviceName;
      this.baseUrl := BaseUrl(port);
    }

    /** call_tool: discover, check the name, call, fold the content items
        into final_data, collapse it.  `net` gives the service behind
        each URL; the one behind baseUrl is the one contacted. */
    method CallTool(toolName: string, args: Args, net: string -> Server,
                    loads: string -> Loaded)
      returns (r: Value, called: bool)
      ensures called == Invokes(net(baseUrl), toolName)
      ensures !called ==> r == VNone
      ensures r == CallToolResult(net(baseUrl), toolName, args, loads)
    {
      var server := net(baseUrl);
      // Connecting, initialize() and list_tools() raising all land in
      // the outer except and give None.
      if !server.reachable || !server.initialises || server.tools.None? {
        return VNone, false;
      }
      var availableTools := server.tools.value;
      if toolName !in availableTools {
        return VNone, false;
      }
      called := true;
      var response := server.respond(toolName, args);
      if response.None? {
        return VNone, called;
      }
      var content := response.value;
      var finalData: seq<Value> := [];
      var i := 0;
      while i < |content|
        invariant 0 <= i <= |content|
        invariant Extracted(content[..i], loads) == Some(finalData)
      {
        assert content[..i + 1][..i] == content[..i];
        match content[i] {
          case NonText(_) =>
          case Text(t) =>
            match loads(t) {
              case Parsed(v) =>
                finalData := finalData + [v];
              case DecodeError =>
                finalData := finalData + [VStr(t)];
              case OtherError =>
                ExtractedFails(content, loads);
                assert LoadFails(loads, content[i]);
                return VNone, called;
            }
        }
        i := i + 1;
      }
      assert content[..i] == content;
      if |finalData| == 0 {
        return VNone, called;
      }
      r := if |finalData| == 1 then finalData[0] else VList(finalData);
    }
  }
}
