/** The LangChain tool wrappers: `ToolsWrapper` turns `server.tool` entries into tools
    whose function reports the server and tool it stands for, with the keyword arguments
    it was called with.

    The functions are Python closures over the loop variables `server_name` and
    `tool_name`. Python closures capture variables, not values, so all of them share one
    cell, which the loop rebinds on every entry: the `Scope` object below is that cell. */
module LangchainTools {
  import opened Common
  import opened Json

  /** The enclosing scope of the closures: the two loop variables. */
  class Scope {
    var serverName: string
    var toolName: string

    constructor ()
      ensures serverName == "" && toolName == ""
    {
      serverName := "";
      toolName := "";
    }
  }

  /** A LangChain `Tool`: its name, its description and the scope its function reads. */
  datatype LcTool = LcTool(name: string, description: string, env: Scope)

  /** The server and tool an entry names: split at the first dot, or the whole entry as a
      tool of `unknown-server` when it has no dot. */
  function EntryParts(entry: string): (r: (string, string))
    ensures '.' in entry ==> '.' !in r.0 && entry == r.0 + "." + r.1
    ensures '.' !in entry ==> r == ("unknown-server", entry)
  {
    match SplitFirst(entry, '.')
    case Some(parts) => parts
    case None => ("unknown-server", entry)
  }

  /** The dict a tool's function returns for a server, a tool and the keyword arguments:
      three entries, `server`, `tool` and `args`. */
  function Report(server: string, tool: string, kwargs: Fields): (r: Json)
    ensures r.Obj? && |r.fields| == 3 && Get(r.fields, "server") == Some(Str(server))
    ensures Get(r.fields, "tool") == Some(Str(tool)) && Get(r.fields, "args") == Some(Obj(kwargs))
  {
    var fs := [("server", Str(server)), ("tool", Str(tool)), ("args", Obj(kwargs))];
    GetAt(fs, 0);
    GetAt(fs, 1);
    GetAt(fs, 2);
    Obj(fs)
  }

  /** The dict has no key besides `server`, `tool` and `args`. */
  lemma ReportKeys(server: string, tool: string, kwargs: Fields)
    ensures forall k | k != "server" && k != "tool" && k != "args" :: !HasKey(Report(server, tool, kwargs).fields, k)
  {
    var fs := Report(server, tool, kwargs).fields;
    forall k | k != "server" && k != "tool" && k != "args" ensures !HasKey(fs, k) {
      GetFound(fs, k);
    }
  }

  /** Calling a tool's function: it reads the scope as it is at the time of the call. */
  function CallTool(t: LcTool, kwargs: Fields): (r: Json)
    reads t.env
    ensures r.Obj? && Get(r.fields, "server") == Some(Str(t.env.serverName))
    ensures Get(r.fields, "tool") == Some(Str(t.env.toolName)) && Get(r.fields, "args") == Some(Obj(kwargs))
  {
    Report(t.env.serverName, t.env.toolName, kwargs)
  }

  /** `ToolsWrapper`: one tool per entry, in order, named after the entry's tool part and
      without a description. Every function shares the loop's scope, so after the loop
      each one reports the server and tool of the last entry, whichever tool it belongs to. */
  method ToolsWrapper(entries: seq<string>) returns (tools: seq<LcTool>)
    ensures |tools| == |entries|
    ensures forall i | 0 <= i < |entries| :: tools[i].name == EntryParts(entries[i]).1 && tools[i].description == ""
    ensures forall i | 0 <= i < |tools| :: fresh(tools[i].env) && tools[i].env == tools[0].env
    ensures forall i, kwargs | 0 <= i < |tools| ::
      CallTool(tools[i], kwargs) == Report(EntryParts(entries[|entries| - 1]).0, EntryParts(entries[|entries| - 1]).1, kwargs)
  {
    var env := new Scope();
    tools := [];
    var i := 0;
    while i < |entries|
      invariant 0 <= i <= |entries| && |tools| == i
      invariant fresh(env) && forall j | 0 <= j < i :: tools[j] == LcTool(EntryParts(entries[j]).1, "", env)
      invariant i > 0 ==> env.serverName == EntryParts(entries[i - 1]).0 && env.toolName == EntryParts(entries[i - 1]).1
    {
      var t := Bind(env, entries[i]);
      tools := tools + [t];
      i := i + 1;
    }
    if i > 0 {
      LastEntryReported(tools, env, entries);
    }
  }

  /** One turn of the loop: the entry's parts are bound in the shared scope, and the new
      tool reads that scope. */
  method Bind(env: Scope, entry: string) returns (t: LcTool)
    modifies env
    ensures env.serverName == EntryParts(entry).0 && env.toolName == EntryParts(entry).1
    ensures t == LcTool(EntryParts(entry).1, "", env)
  {
    var parts := EntryParts(entry);
    env.serverName, env.toolName := parts.0, parts.1;
    t := LcTool(parts.1, "", env);
  }

  /** Every tool whose function reads `env` reports what `env` holds: here, the last
      entry's parts. */
  lemma LastEntryReported(tools: seq<LcTool>, env: Scope, entries: seq<string>)
    requires |entries| > 0 && forall j | 0 <= j < |tools| :: tools[j].env == env
    requires env.serverName == EntryParts(entries[|entries| - 1]).0 && env.toolName == EntryParts(entries[|entries| - 1]).1
    ensures forall i, kwargs | 0 <= i < |tools| ::
      CallTool(tools[i], kwargs) == Report(EntryParts(entries[|entries| - 1]).0, EntryParts(entries[|entries| - 1]).1, kwargs)
  {
    var last := EntryParts(entries[|entries| - 1]);
    forall i, kwargs | 0 <= i < |tools| ensures CallTool(tools[i], kwargs) == Report(last.0, last.1, kwargs) {
      assert tools[i].env == env;
    }
  }

  /** `make_langchain_tools`: the tools are handed to the agent as they are. */
  function MakeLangchainTools(suggested: seq<LcTool>): (r: seq<LcTool>)
    ensures |r| == |suggested| && forall i | 0 <= i < |r| :: r[i] == suggested[i]
  {
    suggested
  }

  /** An entry with dots names, as its tool, everything after the first dot:
      `complex-server.sub.read-file` names tool `sub.read-file` of `complex-server`. */
  lemma EntryPartsDotted()
    ensures EntryParts("complex-server.sub.read-file") == ("complex-server", "sub.read-file")
  {
    var server, tool := "complex-server", "sub.read-file";
    assert "complex-server.sub.read-file" == server + "." + tool;
    assert '.' !in server;
    SplitFirstAt(server, '.', tool);
  }

  /** An entry without a dot, such as `read-file`, names a tool of `unknown-server`. */
  lemma EntryPartsBare()
    ensures EntryParts("read-file") == ("unknown-server", "read-file")
  {
    assert '.' !in "read-file";
  }
}
