/** The MCP gateway: the client that knows the four tool servers, lists their tools,
    calls a tool and describes the tools to the planner, and the planning LLM that adds
    that description to the prompt and falls back to a fixed plan when the provider fails.

    The stdio transport is a parameter: `Transport` maps a server's configuration to the
    session it opens (or the exception opening it raises), and a `Session` holds the
    server's answers to `list_tools` and `call_tool`. The async code runs sequentially. */
module McpIntegration {
  import opened Common
  import opened Json
  import opened Models
  import opened Schemas

  // ---------------------------------------------------------------------------
  // Servers and sessions

  /** How a server is started: the interpreter, the script, and what the server is for. */
  datatype ServerConfig = ServerConfig(command: string, args: seq<string>, description: string)

  const ServerNames: seq<string> := ["file-operations", "email-operations", "database-operations", "web-operations"]

  /** The four configured servers, in configuration order. `executable` is
      `sys.executable` and `serversDir` the `mcp_servers` directory. */
  function ServerConfigs(executable: string, serversDir: string): (r: seq<(string, ServerConfig)>)
    ensures |r| == |ServerNames| && forall i | 0 <= i < |r| :: r[i].0 == ServerNames[i] && r[i].1.command == executable
  {
    [("file-operations", ServerConfig(executable, [serversDir + "/file_server.py"], "File operations with security controls")),
     ("email-operations", ServerConfig(executable, [serversDir + "/email_server.py"], "Email operations with privacy controls")),
     ("database-operations", ServerConfig(executable, [serversDir + "/database_server.py"], "Database operations with security controls")),
     ("web-operations", ServerConfig(executable, [serversDir + "/web_server.py"], "Web operations with security controls"))]
  }

  /** An MCP tool as the server lists it; `inputSchema` is `Null` when the tool has none. */
  datatype McpTool = McpTool(name: string, description: Option<string>, inputSchema: Json)

  /** An item of a tool result: text content, or content of another kind (an image, say). */
  datatype ContentItem = TextContent(text: string) | OtherContent

  /** What an initialised session answers: its tool list, and the content of a tool call. */
  datatype Session = Session(
    tools: Result<seq<McpTool>, Exception>,
    call: (string, Fields) -> Result<seq<ContentItem>, Exception>)

  type Transport = ServerConfig -> Result<Session, Exception>

  /** `server_configs.get(name)`. */
  function ConfigOf(configs: seq<(string, ServerConfig)>, name: string): (r: Option<ServerConfig>)
    ensures r.Some? <==> exists i | 0 <= i < |configs| :: configs[i].0 == name
    ensures r.Some? ==> exists i | 0 <= i < |configs| :: configs[i] == (name, r.value)
  {
    if configs == [] then None
    else if configs[|configs| - 1].0 == name then Some(configs[|configs| - 1].1)
    else
      var r := ConfigOf(configs[..|configs| - 1], name);
      assert r.Some? ==> exists i | 0 <= i < |configs| - 1 :: configs[i] == (name, r.value) by {
        if r.Some? {
          var j :| 0 <= j < |configs| - 1 && configs[..|configs| - 1][j] == (name, r.value);
          assert configs[j] == (name, r.value);
        }
      }
      r
  }

  // ---------------------------------------------------------------------------
  // Building text piece by piece

  /** The text of the pieces `f` makes of `xs`, left to right, or the first exception. */
  function Concat<T>(xs: seq<T>, f: T -> Result<string, Exception>): (r: Result<string, Exception>)
  {
    if xs == [] then Ok("")
    else
      match Concat(xs[..|xs| - 1], f)
      case Err(e) => Err(e)
      case Ok(t) =>
        match f(xs[|xs| - 1])
        case Err(e) => Err(e)
        case Ok(piece) => Ok(t + piece)
  }

  /** An exception stops the text: once a prefix fails, the whole fails the same way. */
  lemma {:induction false} ConcatErrSticks<T>(xs: seq<T>, f: T -> Result<string, Exception>, k: nat)
    requires k <= |xs| && Concat(xs[..k], f).Err?
    ensures Concat(xs, f) == Concat(xs[..k], f)
    decreases |xs| - k
  {
    if k < |xs| {
      assert xs[..k + 1][..k] == xs[..k];
      ConcatErrSticks(xs, f, k + 1);
    } else {
      assert xs[..k] == xs;
    }
  }

  /** The text succeeds exactly when every piece does, and then it is all the pieces. */
  lemma {:induction false} ConcatOk<T>(xs: seq<T>, f: T -> Result<string, Exception>)
    ensures Concat(xs, f).Ok? <==> forall i | 0 <= i < |xs| :: f(xs[i]).Ok?
  {
    if xs != [] {
      var n := |xs|;
      ConcatOk(xs[..n - 1], f);
      assert forall i | 0 <= i < n - 1 :: xs[..n - 1][i] == xs[i];
    }
  }

  /** A piece that succeeds is part of the text. */
  lemma {:induction false} ConcatContains<T>(xs: seq<T>, f: T -> Result<string, Exception>, i: nat)
    requires i < |xs| && Concat(xs, f).Ok?
    ensures f(xs[i]).Ok? && Contains(Concat(xs, f).value, f(xs[i]).value)
  {
    var n := |xs|;
    var pre := Concat(xs[..n - 1], f);
    if i < n - 1 {
      assert xs[..n - 1][i] == xs[i];
      ConcatContains(xs[..n - 1], f, i);
      ContainsAppend(pre.value, f(xs[n - 1]).value, f(xs[i]).value);
    } else {
      ContainsSuffix(pre.value, f(xs[n - 1]).value);
    }
  }

  lemma ContainsAppend(s: string, t: string, x: string)
    requires Contains(s, x)
    ensures Contains(s + t, x)
  {
    var k :| 0 <= k <= |s| - |x| && OccursAt(s, x, k);
    assert (s + t)[k..k + |x|] == s[k..k + |x|];
    assert OccursAt(s + t, x, k);
  }

  lemma ContainsSuffix(s: string, t: string)
    ensures Contains(s + t, t)
  {
    assert (s + t)[|s|..|s| + |t|] == t;
    assert OccursAt(s + t, t, |s|);
  }

  lemma ContainsPrefix(s: string, t: string)
    ensures Contains(s + t, s)
  {
    assert (s + t)[0..|s|] == s;
    assert OccursAt(s + t, s, 0);
  }

  // ---------------------------------------------------------------------------
  // Tool results and tool descriptions

  const NoContent := "Tool executed successfully (no content returned)"
  const NoTools := "No MCP tools available."
  const Header := "Available MCP Tools:\n\n"
  const Instruction := "When suggesting tools for tasks, include the tool names in your sub-task 'suggested_tools' field."

  /** The texts of the items that have one, in order. */
  function Texts(content: seq<ContentItem>): (r: seq<string>)
    ensures |r| <= |content|
    ensures r == [] <==> forall i | 0 <= i < |content| :: !content[i].TextContent?
    ensures (forall i | 0 <= i < |content| :: content[i].TextContent?) ==>
      |r| == |content| && forall i | 0 <= i < |content| :: r[i] == content[i].text
  {
    if content == [] then []
    else
      var n := |content|;
      var rest := Texts(content[..n - 1]);
      assert forall i | 0 <= i < n - 1 :: content[..n - 1][i] == content[i];
      if content[n - 1].TextContent? then rest + [content[n - 1].text] else rest
  }

  /** What `call_tool` makes of a result's content: the texts joined by newlines, or the
      fixed sentence when there is no content at all. */
  function ContentText(content: seq<ContentItem>): (r: string)
    ensures content == [] ==> r == NoContent
    ensures content != [] && (forall i | 0 <= i < |content| :: !content[i].TextContent?) ==> r == ""
    ensures |content| == 1 && content[0].TextContent? ==> r == content[0].text
  {
    if content != [] then Join("\n", Texts(content)) else NoContent
  }

  /** `prop_name in required`: list membership, dict key, substring; a number, a boolean
      or `None` is not a container and raises `TypeError`. */
  function InRequired(required: Json, prop: string): (r: Result<bool, Exception>)
    ensures required.Arr? ==> r == Ok(Str(prop) in required.items)
    ensures required.Obj? ==> r == Ok(HasKey(required.fields, prop))
    ensures r.Err? <==> !(required.Arr? || required.Obj? || required.Str?)
  {
    match required
    case Arr(items) => Ok(Str(prop) in items)
    case Obj(fields) => Ok(HasKey(fields, prop))
    case Str(s) => Ok(Contains(s, prop))
    case _ => Err(TypeError("argument of type is not iterable"))
  }

  /** The line of one schema property. */
  function PropLine(prop: (string, Json), required: Json, show: Json -> string): (r: Result<string, Exception>)
    ensures r.Ok? <==> InRequired(required, prop.0).Ok? && prop.1.Obj?
    ensures r.Ok? ==>
      r.value == "    - " + prop.0 + ": " + Display(GetOr(prop.1.fields, "description", Str("No description")), show)
                 + (if InRequired(required, prop.0).value then " (required)" else "") + "\n"
  {
    match InRequired(required, prop.0)
    case Err(e) => Err(e)
    case Ok(req) =>
      if !prop.1.Obj? then Err(AttributeError("object has no attribute 'get'"))
      else
        var desc := Display(GetOr(prop.1.fields, "description", Str("No description")), show);
        Ok("    - " + prop.0 + ": " + desc + (if req then " (required)" else "") + "\n")
  }

  function PropFn(required: Json, show: Json -> string): ((string, Json)) -> Result<string, Exception>
  {
    prop => PropLine(prop, required, show)
  }

  /** The property lines of a tool's input schema: none unless the schema is a non-empty
      dict with `properties`; `properties` must then be a dict. */
  function SchemaLines(schema: Json, show: Json -> string): (r: Result<string, Exception>)
    ensures !(schema.Obj? && HasKey(schema.fields, "properties")) ==> r == Ok("")
  {
    if schema.Obj? && HasKey(schema.fields, "properties") then
      var required := GetOr(schema.fields, "required", Arr([]));
      var props := Get(schema.fields, "properties").value;
      if props.Obj? then Concat(props.fields, PropFn(required, show))
      else Err(AttributeError("object has no attribute 'items'"))
    else Ok("")
  }

  /** `f"{tool.description}"`: a missing description prints as `None`. */
  function DescriptionText(d: Option<string>): string
  {
    match d
    case Some(s) => s
    case None => "None"
  }

  /** The bullet line of a tool followed by its property lines. */
  function ToolText(t: McpTool, show: Json -> string): (r: Result<string, Exception>)
    ensures r.Ok? <==> SchemaLines(t.inputSchema, show).Ok?
    ensures r.Ok? ==> r.value == "  • " + t.name + ": " + DescriptionText(t.description) + "\n" + SchemaLines(t.inputSchema, show).value
  {
    match SchemaLines(t.inputSchema, show)
    case Err(e) => Err(e)
    case Ok(lines) => Ok("  • " + t.name + ": " + DescriptionText(t.description) + "\n" + lines)
  }

  function ToolFn(show: Json -> string): McpTool -> Result<string, Exception>
  {
    t => ToolText(t, show)
  }

  /** `server_configs.get(name, {}).get("description", "MCP Server")`. */
  function ServerDescription(configs: seq<(string, ServerConfig)>, name: string): string
  {
    match ConfigOf(configs, name)
    case Some(c) => c.description
    case None => "MCP Server"
  }

  /** The heading of a configured server. */
  function ConfigHeading(entry: (string, ServerConfig)): string
  {
    "Server: " + entry.0 + " - " + entry.1.description + "\n"
  }

  function ServerHeading(configs: seq<(string, ServerConfig)>, name: string): string
  {
    "Server: " + name + " - " + ServerDescription(configs, name) + "\n"
  }

  /** A server's section: nothing for a server without tools, else its heading, its tools
      and a blank line. */
  function ServerSection(entry: (string, seq<McpTool>), configs: seq<(string, ServerConfig)>, show: Json -> string): (r: Result<string, Exception>)
    ensures entry.1 == [] ==> r == Ok("")
    ensures entry.1 != [] ==> (r.Ok? <==> Concat(entry.1, ToolFn(show)).Ok?)
    ensures entry.1 != [] && r.Ok? ==> r.value == ServerHeading(configs, entry.0) + Concat(entry.1, ToolFn(show)).value + "\n"
  {
    if entry.1 == [] then Ok("")
    else
      match Concat(entry.1, ToolFn(show))
      case Err(e) => Err(e)
      case Ok(tools) => Ok(ServerHeading(configs, entry.0) + tools + "\n")
  }

  function SectionFn(configs: seq<(string, ServerConfig)>, show: Json -> string): ((string, seq<McpTool>)) -> Result<string, Exception>
  {
    entry => ServerSection(entry, configs, show)
  }

  /** Every server lists no tools. */
  predicate NoToolsAnywhere(byServer: seq<(string, seq<McpTool>)>)
  {
    forall i | 0 <= i < |byServer| :: byServer[i].1 == []
  }

  /** The description `get_tools_description` gives for the tools listed by server. */
  function DescribeTools(byServer: seq<(string, seq<McpTool>)>, configs: seq<(string, ServerConfig)>, show: Json -> string): (r: Result<string, Exception>)
  {
    if NoToolsAnywhere(byServer) then Ok(NoTools)
    else
      match Concat(byServer, SectionFn(configs, show))
      case Err(e) => Err(e)
      case Ok(sections) => Ok(Header + sections + Instruction)
  }

  /** The placeholder sentence comes back exactly when no server lists a tool. */
  lemma NoToolsSentence(byServer: seq<(string, seq<McpTool>)>, configs: seq<(string, ServerConfig)>, show: Json -> string)
    ensures DescribeTools(byServer, configs, show) == Ok(NoTools) <==> NoToolsAnywhere(byServer)
  {
    var r := DescribeTools(byServer, configs, show);
    if !NoToolsAnywhere(byServer) && r.Ok? {
      assert r.value[0] == 'A';
      assert NoTools[0] == 'N';
    }
  }

  /** A full description opens with the header, closes with the instruction, and holds the
      heading of every server that lists a tool, with its tool lines. */
  lemma DescriptionMentionsServers(byServer: seq<(string, seq<McpTool>)>, configs: seq<(string, ServerConfig)>, show: Json -> string, i: nat)
    requires i < |byServer| && byServer[i].1 != []
    requires DescribeTools(byServer, configs, show).Ok?
    ensures var r := DescribeTools(byServer, configs, show).value;
      && StartsWith(r, Header)
      && ServerSection(byServer[i], configs, show).Ok?
      && Contains(r, ServerSection(byServer[i], configs, show).value)
  {
    var f := SectionFn(configs, show);
    var sections := Concat(byServer, f).value;
    ConcatContains(byServer, f, i);
    var sec := f(byServer[i]).value;
    ContainsAppend(sections, Instruction, sec);
    ContainsShift(Header, sections + Instruction, sec);
    assert Header + sections + Instruction == Header + (sections + Instruction);
    assert (Header + sections + Instruction)[..|Header|] == Header;
  }

  lemma ContainsShift(s: string, t: string, x: string)
    requires Contains(t, x)
    ensures Contains(s + t, x)
  {
    var k :| 0 <= k <= |t| - |x| && OccursAt(t, x, k);
    assert (s + t)[|s| + k..|s| + k + |x|] == t[k..k + |x|];
    assert OccursAt(s + t, x, |s| + k);
  }

  /** Building the text one piece further. */
  lemma ConcatSnoc<T>(xs: seq<T>, f: T -> Result<string, Exception>, i: nat)
    requires i < |xs| && Concat(xs[..i], f).Ok? && f(xs[i]).Ok?
    ensures Concat(xs[..i + 1], f) == Ok(Concat(xs[..i], f).value + f(xs[i]).value)
  {
    assert xs[..i + 1][..i] == xs[..i];
  }

  /** The first piece that fails decides the whole text. */
  lemma ConcatFirstErr<T>(xs: seq<T>, f: T -> Result<string, Exception>, i: nat)
    requires i < |xs| && Concat(xs[..i], f).Ok? && f(xs[i]).Err?
    ensures Concat(xs, f) == Err(f(xs[i]).error)
  {
    assert xs[..i + 1][..i] == xs[..i];
    ConcatErrSticks(xs, f, i + 1);
  }

  /** `tools_description` lines of a tool list, built in a loop. */
  method ToolLines(tools: seq<McpTool>, show: Json -> string) returns (r: Result<string, Exception>)
    ensures r == Concat(tools, ToolFn(show))
  {
    var f := ToolFn(show);
    var text := "";
    var j := 0;
    while j < |tools|
      invariant 0 <= j <= |tools|
      invariant Concat(tools[..j], f) == Ok(text)
    {
      var line := ToolLine(tools[j], show);
      assert f(tools[j]) == line;
      if line.Err? {
        ConcatFirstErr(tools, f, j);
        return line;
      }
      ConcatSnoc(tools, f, j);
      text := text + line.value;
      j := j + 1;
    }
    assert tools[..j] == tools;
    r := Ok(text);
  }

  /** The bullet line of one tool and the lines of its schema's properties. */
  method ToolLine(t: McpTool, show: Json -> string) returns (r: Result<string, Exception>)
    ensures r == ToolText(t, show)
  {
    var line := "  • " + t.name + ": " + DescriptionText(t.description) + "\n";
    var schema := t.inputSchema;
    if schema.Obj? && HasKey(schema.fields, "properties") {
      var required := GetOr(schema.fields, "required", Arr([]));
      var props := Get(schema.fields, "properties").value;
      if !props.Obj? {
        return Err(AttributeError("object has no attribute 'items'"));
      }
      var lines := PropertyLines(props.fields, required, show);
      assert SchemaLines(schema, show) == lines;
      if lines.Err? {
        return lines;
      }
      line := line + lines.value;
    } else {
      assert line + "" == line;
    }
    r := Ok(line);
  }

  /** The lines of a schema's properties, built in a loop. */
  method PropertyLines(props: Fields, required: Json, show: Json -> string) returns (r: Result<string, Exception>)
    ensures r == Concat(props, PropFn(required, show))
  {
    var f := PropFn(required, show);
    var text := "";
    var k := 0;
    while k < |props|
      invariant 0 <= k <= |props|
      invariant Concat(props[..k], f) == Ok(text)
    {
      var line := PropertyLine(props[k], required, show);
      assert f(props[k]) == line;
      if line.Err? {
        ConcatFirstErr(props, f, k);
        return line;
      }
      ConcatSnoc(props, f, k);
      text := text + line.value;
      k := k + 1;
    }
    assert props[..k] == props;
    r := Ok(text);
  }

  /** One property's line: its name, its description and, when `required` lists it, the
      required marker. */
  method PropertyLine(prop: (string, Json), required: Json, show: Json -> string) returns (r: Result<string, Exception>)
    ensures r == PropLine(prop, required, show)
  {
    var (name, info) := prop;
    var req := InRequired(required, name);
    if req.Err? {
      return Err(req.error);
    }
    var marker := if req.value then " (required)" else "";
    if !info.Obj? {
      return Err(AttributeError("object has no attribute 'get'"));
    }
    var desc := Display(GetOr(info.fields, "description", Str("No description")), show);
    r := Ok("    - " + name + ": " + desc + marker + "\n");
  }

  /** The description of the listed tools, built with nested loops over servers, tools
      and properties. */
  method DescribeListed(byServer: seq<(string, seq<McpTool>)>, configs: seq<(string, ServerConfig)>, show: Json -> string)
    returns (r: Result<string, Exception>)
    ensures r == DescribeTools(byServer, configs, show)
  {
    if forall i | 0 <= i < |byServer| :: byServer[i].1 == [] {
      return Ok(NoTools);
    }
    var f := SectionFn(configs, show);
    var sections := "";
    var i := 0;
    while i < |byServer|
      invariant 0 <= i <= |byServer|
      invariant Concat(byServer[..i], f) == Ok(sections)
    {
      var (server, tools) := byServer[i];
      assert f(byServer[i]) == ServerSection((server, tools), configs, show);
      if tools != [] {
        var lines := ToolLines(tools, show);
        if lines.Err? {
          ConcatFirstErr(byServer, f, i);
          return Err(lines.error);
        }
        ConcatSnoc(byServer, f, i);
        sections := sections + (ServerHeading(configs, server) + lines.value + "\n");
      } else {
        ConcatSnoc(byServer, f, i);
        assert sections + "" == sections;
      }
      i := i + 1;
    }
    assert byServer[..i] == byServer;
    r := Ok(Header + sections + Instruction);
  }

  /** `MCPClient`: the configured servers, reached through the transport. `show` is the
      `str()` that f-strings apply to values that are not strings. The client never
      changes after it is built, so it is a value. */
  datatype McpClient = McpClient(serverConfigs: seq<(string, ServerConfig)>, transport: Transport, show: Json -> string)
  {
    /** `_execute_with_server`: no connection for a server that is not configured, and
        `None` when connecting or the operation raises. */
    function ExecuteWithServer<T>(server: string, op: Session -> Result<T, Exception>): (r: Option<T>)
      ensures ConfigOf(serverConfigs, server).None? ==> r.None?
      ensures r.Some? <==>
        && ConfigOf(serverConfigs, server).Some?
        && transport(ConfigOf(serverConfigs, server).value).Ok?
        && op(transport(ConfigOf(serverConfigs, server).value).value).Ok?
      ensures r.Some? ==> Ok(r.value) == op(transport(ConfigOf(serverConfigs, server).value).value)
    {
      match ConfigOf(serverConfigs, server)
      case None => None
      case Some(config) =>
        match transport(config)
        case Err(_) => None
        case Ok(session) =>
          match op(session)
          case Err(_) => None
          case Ok(v) => Some(v)
    }

    /** The tools a server lists, `[]` when it is not configured, cannot be reached, or
        its `list_tools` raises. */
    function ToolsOf(server: string): (r: seq<McpTool>)
      ensures ConfigOf(serverConfigs, server).None? ==> r == []
      ensures ConfigOf(serverConfigs, server).Some? ==>
        var connected := transport(ConfigOf(serverConfigs, server).value);
        && (connected.Err? ==> r == [])
        && (connected.Ok? && connected.value.tools.Err? ==> r == [])
        && (connected.Ok? && connected.value.tools.Ok? ==> r == connected.value.tools.value)
    {
      match ExecuteWithServer(server, (session: Session) => session.tools)
      case Some(tools) => tools
      case None => []
    }

    /** The named server when a non-empty name is given, else every configured server. */
    function ServersToCheck(name: Option<string>): (r: seq<string>)
      ensures name.Some? && name.value != "" ==> r == [name.value]
      ensures !(name.Some? && name.value != "") ==>
        |r| == |serverConfigs| && forall i | 0 <= i < |r| :: r[i] == serverConfigs[i].0
    {
      if name.Some? && name.value != "" then [name.value]
      else seq(|serverConfigs|, i requires 0 <= i < |serverConfigs| => serverConfigs[i].0)
    }

    /** `list_tools`: every checked server, in order, with its tools. */
    function ListToolsSpec(name: Option<string>): (r: seq<(string, seq<McpTool>)>)
      ensures |r| == |ServersToCheck(name)|
      ensures forall i | 0 <= i < |r| :: r[i] == (ServersToCheck(name)[i], ToolsOf(ServersToCheck(name)[i]))
    {
      var servers := ServersToCheck(name);
      seq(|servers|, i requires 0 <= i < |servers| => (servers[i], ToolsOf(servers[i])))
    }

    method ListTools(name: Option<string>) returns (byServer: seq<(string, seq<McpTool>)>)
      ensures byServer == ListToolsSpec(name)
    {
      var servers := ServersToCheck(name);
      byServer := [];
      var i := 0;
      while i < |servers|
        invariant 0 <= i <= |servers| && |byServer| == i
        invariant forall j | 0 <= j < i :: byServer[j] == (servers[j], ToolsOf(servers[j]))
      {
        var tools := ExecuteWithServer(servers[i], (session: Session) => session.tools);
        var listed := if tools.Some? then tools.value else [];
        byServer := byServer + [(servers[i], listed)];
        i := i + 1;
      }
    }

    /** `call_tool`: the text of the tool's content, or `None` when the server is not
        configured, cannot be reached, or the call raises. */
    function CallTool(server: string, tool: string, arguments: Fields): (r: Option<string>)
      ensures ConfigOf(serverConfigs, server).None? ==> r.None?
      ensures r.Some? <==>
        && ConfigOf(serverConfigs, server).Some?
        && transport(ConfigOf(serverConfigs, server).value).Ok?
        && transport(ConfigOf(serverConfigs, server).value).value.call(tool, arguments).Ok?
      ensures r.Some? ==>
        r.value == ContentText(transport(ConfigOf(serverConfigs, server).value).value.call(tool, arguments).value)
    {
      ExecuteWithServer(server, (session: Session) =>
        match session.call(tool, arguments)
        case Ok(content) => Ok(ContentText(content))
        case Err(e) => Err(e))
    }

    /** `get_tools_description`: the description of every server's tools. */
    method GetToolsDescription() returns (r: Result<string, Exception>)
      ensures r == DescribeTools(ListToolsSpec(None), serverConfigs, show)
    {
      var byServer := ListTools(None);
      r := DescribeListed(byServer, serverConfigs, show);
    }

    /** `get_available_servers`: each configured server with its description, in order. */
    function AvailableServers(): (r: seq<(string, string)>)
      ensures |r| == |serverConfigs|
      ensures forall i | 0 <= i < |r| :: r[i].0 == serverConfigs[i].0 && r[i].1 == serverConfigs[i].1.description
    {
      seq(|serverConfigs|, i requires 0 <= i < |serverConfigs| => (serverConfigs[i].0, serverConfigs[i].1.description))
    }
  }

  /** `MCPClient()`: a client for the four configured servers. */
  function NewMcpClient(executable: string, serversDir: string, transport: Transport, show: Json -> string): (c: McpClient)
    ensures c.serverConfigs == ServerConfigs(executable, serversDir)
    ensures |c.serverConfigs| == 4 && forall i | 0 <= i < 4 :: c.serverConfigs[i].0 == ServerNames[i]
  {
    McpClient(ServerConfigs(executable, serversDir), transport, show)
  }

  /** With distinct names, looking a configured name up finds its own configuration. */
  lemma {:induction false} ConfigOfAt(configs: seq<(string, ServerConfig)>, i: nat)
    requires i < |configs|
    requires forall a, b | 0 <= a < b < |configs| :: configs[a].0 != configs[b].0
    ensures ConfigOf(configs, configs[i].0) == Some(configs[i].1)
  {
    var n := |configs|;
    if i < n - 1 {
      var pre := configs[..n - 1];
      assert pre[i] == configs[i];
      ConfigOfAt(pre, i);
    }
  }

  lemma ServerNamesDistinct(executable: string, serversDir: string)
    ensures var c := ServerConfigs(executable, serversDir);
      forall a, b | 0 <= a < b < |c| :: c[a].0 != c[b].0
  {
    var c := ServerConfigs(executable, serversDir);
    assert |c[0].0| == 15 && |c[1].0| == 16 && |c[2].0| == 19 && |c[3].0| == 14;
  }

  /** Only the four configured servers are ever connected to. */
  lemma UnconfiguredServer(executable: string, serversDir: string, name: string)
    requires name !in ServerNames
    ensures ConfigOf(ServerConfigs(executable, serversDir), name).None?
  {
  }

  /** The four configured servers and their descriptions. */
  lemma ConfiguredServers(executable: string, serversDir: string)
    ensures var c := ServerConfigs(executable, serversDir);
      && ServerDescription(c, "file-operations") == "File operations with security controls"
      && ServerDescription(c, "email-operations") == "Email operations with privacy controls"
      && ServerDescription(c, "database-operations") == "Database operations with security controls"
      && ServerDescription(c, "web-operations") == "Web operations with security controls"
  {
    var c := ServerConfigs(executable, serversDir);
    ServerNamesDistinct(executable, serversDir);
    ConfigOfAt(c, 0);
    ConfigOfAt(c, 1);
    ConfigOfAt(c, 2);
    ConfigOfAt(c, 3);
  }

  // ---------------------------------------------------------------------------
  // The planning LLM

  /** The greedy dot-all `\{.*\}` span: from the first `{` to the last `}`, when a `}`
      follows the first `{`; `findall` then has exactly this one match. */
  function BraceSpan(response: string): (r: Option<string>)
    ensures r.Some? ==> var s, e := Find(response, "{"), RFind(response, "}");
      0 <= s < e && r.value == response[s..e + 1]
  {
    var s, e := Find(response, "{"), RFind(response, "}");
    if 0 <= s < e then Some(response[s..e + 1]) else None
  }

  /** `_extract_json_from_response`: the brace span when it parses, else the response. */
  function ExtractJsonFromResponse(response: string, parse: Parser): (r: string)
    ensures r != response ==> BraceSpan(response) == Some(r) && parse(r).Parsed?
    ensures BraceSpan(response).None? ==> r == response
    ensures BraceSpan(response).Some? && parse(BraceSpan(response).value).Parsed? ==> r == BraceSpan(response).value
  {
    match BraceSpan(response)
    case Some(candidate) => if parse(candidate).Parsed? then candidate else response
    case None => response
  }

  /** What comes back out of the response is a parseable text from its first `{` to its
      last `}`, or the response itself. */
  lemma ExtractedSpan(response: string, parse: Parser)
    ensures var r := ExtractJsonFromResponse(response, parse);
      r == response || (StartsWith(r, "{") && r[|r| - 1] == '}' && Contains(response, r) && parse(r).Parsed?
                        && !Contains(response[..Find(response, "{")], "{"))
  {
    var r := ExtractJsonFromResponse(response, parse);
    if r != response {
      var s, e := Find(response, "{"), RFind(response, "}");
      assert OccursAt(response, "{", s) && OccursAt(response, "}", e);
      assert r[..1] == response[s..s + 1];
      assert r[|r| - 1] == response[e];
      assert OccursAt(response, r, s);
      NoEarlierOccurrence(response, "{", s);
    }
  }

  lemma NoEarlierOccurrence(s: string, sub: string, k: nat)
    requires |sub| >= 1 && k <= |s| && forall i | 0 <= i < k :: !OccursAt(s, sub, i)
    ensures !Contains(s[..k], sub)
  {
    forall i | 0 <= i <= k - |sub| && OccursAt(s[..k], sub, i) ensures false {
      assert s[..k][i..i + |sub|] == s[i..i + |sub|];
      assert OccursAt(s, sub, i);
    }
  }

  /** A response that is exactly a JSON object comes back unchanged. */
  lemma ExtractWholeObject(response: string, parse: Parser)
    requires |response| >= 2 && response[0] == '{' && response[|response| - 1] == '}'
    requires parse(response).Parsed?
    ensures ExtractJsonFromResponse(response, parse) == response
  {
    BraceSpanWhole(response);
  }

  lemma BraceSpanWhole(text: string)
    requires |text| >= 2 && text[0] == '{' && text[|text| - 1] == '}'
    ensures BraceSpan(text) == Some(text)
  {
    assert OccursAt(text, "{", 0);
    var e := RFind(text, "}");
    assert OccursAt(text, "}", |text| - 1);
    assert e == |text| - 1;
    assert text[0..|text|] == text;
  }

  /** Extracting twice extracts nothing more. */
  lemma ExtractIdempotent(response: string, parse: Parser)
    ensures var r := ExtractJsonFromResponse(response, parse);
      ExtractJsonFromResponse(r, parse) == r
  {
    var r := ExtractJsonFromResponse(response, parse);
    if r != response {
      var s, e := Find(response, "{"), RFind(response, "}");
      assert r[0] == response[s] == '{' by { assert OccursAt(response, "{", s); }
      assert r[|r| - 1] == response[e] == '}' by { assert OccursAt(response, "}", e); }
      ExtractWholeObject(r, parse);
    }
  }

  /** The plan JSON that stands in when no plan can be had: the prompt, and one sub-prompt
      with id 1, the given content, and no opaque values or suggested tools. */
  function FallbackPlan(original: string, content: string): (r: Json)
    ensures r.Obj? && Get(r.fields, "original_prompt") == Some(Str(original))
  {
    var fs := [("original_prompt", Str(original)), ("sub_prompts", Arr([FallbackStep(content)]))];
    assert fs[..1] == [("original_prompt", Str(original))];
    assert Get(fs, "original_prompt") == Get(fs[..1], "original_prompt");
    Obj(fs)
  }

  /** The sub-prompt of the fallback plan. */
  function FallbackStep(content: string): Json
  {
    Obj([("id", Int(1)), ("content", Str(content)), ("opaque_values", Obj([])), ("suggested_tools", Arr([]))])
  }

  lemma FallbackStepParses(content: string)
    ensures SubPromptFromJson(FallbackStep(content)) == Some(SubPrompt(1, content, []))
  {
    var sf := FallbackStep(content).fields;
    assert sf[0] == ("id", Int(1)) && sf[1] == ("content", Str(content)) && sf[2] == ("opaque_values", Obj([]));
    GetAt(sf, 0);
    GetAt(sf, 1);
    GetAt(sf, 2);
    assert StringMapOf(Obj([])) == Some([]);
  }

  lemma FallbackStepValid(content: string)
    ensures SubPromptItem(FallbackStep(content)) <==> content != ""
  {
    var sf := FallbackStep(content).fields;
    assert HasKey(sf, "suggested_tools");
    assert HasKey(sf, "id") && HasKey(sf, "content") by {
      GetAt(sf, 0);
      GetAt(sf, 1);
    }
    assert SubPromptField(sf[0]) && SubPromptField(sf[2]) && SubPromptField(sf[3]);
    assert SubPromptField(sf[1]) <==> content != "";
  }

  /** The fallback is a one-step plan. */
  lemma FallbackPlanParses(original: string, content: string)
    ensures PlanFromJson(FallbackPlan(original, content)) == Some(Plan(original, [SubPrompt(1, content, [])]))
  {
    var sub := FallbackStep(content);
    FallbackStepParses(content);
    var fs := FallbackPlan(original, content).fields;
    assert fs == [("original_prompt", Str(original)), ("sub_prompts", Arr([sub]))];
    assert Get(fs, "sub_prompts") == Some(Arr([sub]));
    assert [sub][1..] == [];
    assert SubPromptsFromJson([sub][1..]) == Some([]);
    assert [SubPrompt(1, content, [])] + [] == [SubPrompt(1, content, [])];
  }

  /** The fallback passes the planning schema exactly when the prompt and the content are
      non-empty. */
  lemma FallbackPlanValid(original: string, content: string)
    ensures PlanningOutput(FallbackPlan(original, content)) <==> original != "" && content != ""
  {
    var sub := FallbackStep(content);
    FallbackStepValid(content);
    var fs := FallbackPlan(original, content).fields;
    assert fs == [("original_prompt", Str(original)), ("sub_prompts", Arr([sub]))];
    assert HasKey(fs, "sub_prompts");
    assert PlanField(fs[0]) <==> original != "";
    assert fs[1].1.items[0] == sub;
    assert PlanField(fs[1]) <==> SubPromptItem(sub);
  }

  /** The prompt with the tools description added: after a blank line, unless the
      description says there are no tools. The asynchronous test compares with the whole
      sentence, the synchronous one looks for its words anywhere. */
  function EnhancedPrompt(prompt: string, description: string, sync: bool): (r: string)
    ensures !sync ==> (r == prompt <==> description == NoTools)
    ensures sync && Contains(description, "No MCP tools available") ==> r == prompt
    ensures sync && !Contains(description, "No MCP tools available") ==> r == prompt + "\n\n" + description
  {
    var add := if sync then !Contains(description, "No MCP tools available") else description != NoTools;
    if add then prompt + "\n\n" + description else prompt
  }

  /** The two tests agree unless the text of a tool mentions the sentence's words. */
  lemma EnhancedPromptVariants(prompt: string, description: string)
    requires description == NoTools || !Contains(description, "No MCP tools available")
    ensures EnhancedPrompt(prompt, description, true) == EnhancedPrompt(prompt, description, false)
  {
    if description == NoTools {
      assert NoTools == "No MCP tools available" + ".";
      ContainsPrefix("No MCP tools available", ".");
    }
  }

  /** The description the synchronous planner uses inside a running event loop: the four
      server headings, without any tools. */
  const MockDescription := Header
    + "Server: file-operations - File operations with security controls\n"
    + "Server: email-operations - Email operations with privacy controls\n"
    + "Server: database-operations - Database operations with security controls\n"
    + "Server: web-operations - Web operations with security controls\n"
    + "\n" + Instruction

  /** What a plan request returns when the provider answers `reply`. */
  function PlanReply(prompt: string, reply: Result<string, Exception>, parse: Parser, dumps: Serializer): (r: string)
    ensures reply.Ok? ==> r == ExtractJsonFromResponse(reply.value, parse)
    ensures reply.Err? ==> r == dumps(FallbackPlan(prompt, "Error occurred: " + reply.error.message))
  {
    match reply
    case Ok(raw) => ExtractJsonFromResponse(raw, parse)
    case Err(e) => dumps(FallbackPlan(prompt, "Error occurred: " + e.message))
  }

  /** `provider_kwargs`: the base URL for Ollama, the API key for Gemini, in any case. */
  function ProviderKwargs(providerType: string, baseUrl: string, apiKey: Option<string>): (r: seq<(string, Option<string>)>)
    ensures Lower(providerType) == "ollama" ==> r == [("base_url", Some(baseUrl))]
    ensures Lower(providerType) == "gemini" ==> r == [("api_key", apiKey)]
    ensures Lower(providerType) != "ollama" && Lower(providerType) != "gemini" ==> r == []
  {
    if Lower(providerType) == "ollama" then [("base_url", Some(baseUrl))]
    else if Lower(providerType) == "gemini" then [("api_key", apiKey)]
    else []
  }

  /** `MCPIntegratedPlanningLLM`: a provider (`generate_response`, and its synchronous
      twin, which answers the same), the client, and `json.loads`/`json.dumps`. */
  class McpPlanningLlm {
    const providerType: string
    const model: string
    const baseUrl: string
    const apiKey: Option<string>
    const providerKwargs: seq<(string, Option<string>)>
    const mcpClient: McpClient
    const provider: string -> Result<string, Exception>
    const parse: Parser
    const dumps: Serializer

    constructor (providerType: string, model: string, baseUrl: string, apiKey: Option<string>,
                 executable: string, serversDir: string, transport: Transport, show: Json -> string,
                 provider: string -> Result<string, Exception>, parse: Parser, dumps: Serializer)
      ensures this.providerType == providerType && this.model == model && this.baseUrl == baseUrl && this.apiKey == apiKey
      ensures providerKwargs == ProviderKwargs(providerType, baseUrl, apiKey)
      ensures mcpClient.serverConfigs == ServerConfigs(executable, serversDir)
      ensures mcpClient.transport == transport && mcpClient.show == show
      ensures this.provider == provider && this.parse == parse && this.dumps == dumps
    {
      this.providerType := providerType;
      this.model := model;
      this.baseUrl := baseUrl;
      this.apiKey := apiKey;
      mcpClient := NewMcpClient(executable, serversDir, transport, show);
      providerKwargs := ProviderKwargs(providerType, baseUrl, apiKey);
      this.provider := provider;
      this.parse := parse;
      this.dumps := dumps;
    }

    /** The description the client gives. */
    function ToolsDescription(): Result<string, Exception>
    {
      DescribeTools(mcpClient.ListToolsSpec(None), mcpClient.serverConfigs, mcpClient.show)
    }

    /** `generate_plan`: an exception while describing the tools propagates; the provider's
        exception becomes the fallback plan. */
    method GeneratePlan(prompt: string) returns (r: Result<string, Exception>)
      ensures ToolsDescription().Err? ==> r == Err(ToolsDescription().error)
      ensures ToolsDescription().Ok? ==>
        r == Ok(PlanReply(prompt, provider(EnhancedPrompt(prompt, ToolsDescription().value, false)), parse, dumps))
    {
      var description := mcpClient.GetToolsDescription();
      if description.Err? {
        return Err(description.error);
      }
      var enhanced := EnhancedPrompt(prompt, description.value, false);
      r := Ok(PlanReply(prompt, provider(enhanced), parse, dumps));
    }

    /** `get_available_tools_description_sync`: the fixed description when an event loop
        is running, else the client's. */
    method ToolsDescriptionSync(loopRunning: bool) returns (r: Result<string, Exception>)
      ensures loopRunning ==> r == Ok(MockDescription)
      ensures !loopRunning ==> r == ToolsDescription()
    {
      if loopRunning {
        return Ok(MockDescription);
      }
      r := mcpClient.GetToolsDescription();
    }

    /** `generate_plan_sync`. */
    method GeneratePlanSync(prompt: string, loopRunning: bool) returns (r: Result<string, Exception>)
      ensures loopRunning ==>
        r == Ok(PlanReply(prompt, provider(EnhancedPrompt(prompt, MockDescription, true)), parse, dumps))
      ensures !loopRunning && ToolsDescription().Err? ==> r == Err(ToolsDescription().error)
      ensures !loopRunning && ToolsDescription().Ok? ==>
        r == Ok(PlanReply(prompt, provider(EnhancedPrompt(prompt, ToolsDescription().value, true)), parse, dumps))
    {
      var description := ToolsDescriptionSync(loopRunning);
      if description.Err? {
        return Err(description.error);
      }
      var enhanced := EnhancedPrompt(prompt, description.value, true);
      r := Ok(PlanReply(prompt, provider(enhanced), parse, dumps));
    }
  }
}
