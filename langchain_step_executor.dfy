/** The LangChain step executor: it normalises the tool specifications of a step
    (`suggested_tools`, else `calls`) into tool calls without arguments.

    The step and its specifications are arbitrary Python values (`PyVal`): `Mapping`
    stands for any mapping, `Object` for any value with a `__dict__`, and `Tuple` for the
    remaining values that are neither lists nor either of those. */
module LangchainExecutor {
  import opened Common

  datatype PyVal =
    | PNone
    | PBool(b: bool)
    | PInt(i: int)
    | PStr(s: string)
    | PList(items: seq<PyVal>)
    | Tuple(items: seq<PyVal>)
    | Mapping(fields: seq<(string, PyVal)>)
    | Object(attrs: seq<(string, PyVal)>)

  /** Python truthiness; an object without `__bool__` or `__len__` is true. */
  predicate Truthy(v: PyVal)
  {
    match v
    case PNone => false
    case PBool(b) => b
    case PInt(i) => i != 0
    case PStr(s) => s != ""
    case PList(items) => items != []
    case Tuple(items) => items != []
    case Mapping(fields) => fields != []
    case Object(_) => true
  }

  /** `d.get(k)`: the last binding of `k`, or `None`. */
  function Lookup(fields: seq<(string, PyVal)>, k: string): (v: PyVal)
    ensures v != PNone ==> exists i | 0 <= i < |fields| :: fields[i] == (k, v)
    ensures (forall i | 0 <= i < |fields| :: fields[i].0 != k) ==> v == PNone
  {
    if fields == [] then PNone
    else if fields[|fields| - 1].0 == k then fields[|fields| - 1].1
    else
      var v := Lookup(fields[..|fields| - 1], k);
      assert v != PNone ==> exists i | 0 <= i < |fields| - 1 :: fields[i] == (k, v) by {
        if v != PNone {
          var j :| 0 <= j < |fields| - 1 && fields[..|fields| - 1][j] == (k, v);
          assert fields[j] == (k, v);
        }
      }
      v
  }

  /** A tool call carries no arguments: the executor is not trusted with them. */
  datatype ToolCall = ToolCall(server: PyVal, tool: PyVal)

  datatype LlmStepResponse = LlmStepResponse(toolCalls: seq<ToolCall>)

  /** A LangChain tool, reduced to the name the executor indexes it by. */
  datatype BaseTool = BaseTool(name: string, description: string)

  /** `input.get("suggested_tools") or input.get("calls") or []`, normalised to a list: a
      mapping, a string or an object is wrapped, a list is kept, anything else raises. */
  function SpecList(input: seq<(string, PyVal)>): (r: Result<seq<PyVal>, Exception>)
  {
    var spec :=
      if Truthy(Lookup(input, "suggested_tools")) then Lookup(input, "suggested_tools")
      else if Truthy(Lookup(input, "calls")) then Lookup(input, "calls")
      else PList([]);
    if spec.Mapping? || spec.PStr? || spec.Object? then Ok([spec])
    else if spec.PList? then Ok(spec.items)
    else Err(ValueError("suggested_tools must be a list, mapping, or string"))
  }

  /** What normalising the chosen specification value gives: a list is kept, a mapping,
      a string or an object is wrapped in a list, and anything else raises. */
  ghost predicate NormalisedAs(v: PyVal, r: Result<seq<PyVal>, Exception>)
  {
    && (v.PList? ==> r == Ok(v.items))
    && (v.Mapping? || v.PStr? || v.Object? ==> r == Ok([v]))
    && (v.PNone? || v.PBool? || v.PInt? || v.Tuple? ==>
          r == Err(ValueError("suggested_tools must be a list, mapping, or string")))
  }

  /** How the tool specifications are chosen: `suggested_tools` when it is truthy, else
      `calls` when that is truthy (so a falsy `suggested_tools` such as `None`, `""`, `0`
      or `[]` falls through), else nothing; the chosen value is then normalised. */
  lemma SpecListChoice(input: seq<(string, PyVal)>)
    ensures Truthy(Lookup(input, "suggested_tools")) ==>
      NormalisedAs(Lookup(input, "suggested_tools"), SpecList(input))
    ensures !Truthy(Lookup(input, "suggested_tools")) && Truthy(Lookup(input, "calls")) ==>
      NormalisedAs(Lookup(input, "calls"), SpecList(input))
    ensures !Truthy(Lookup(input, "suggested_tools")) && !Truthy(Lookup(input, "calls")) ==>
      SpecList(input) == Ok([])
  {
  }

  /** The tool call for the `i`-th specification. */
  function SpecCall(i: nat, spec: PyVal): (r: Result<ToolCall, Exception>)
  {
    match spec
    case PStr(s) =>
      (match SplitFirst(Strip(s), '.')
       case Some((server, tool)) => Ok(ToolCall(PStr(server), PStr(tool)))
       case None => Err(ValueError("Invalid tool spec '" + s + "' — must be 'server.tool'")))
    case Mapping(fields) => Ok(ToolCall(Lookup(fields, "server"), Lookup(fields, "tool")))
    case Object(attrs) => Ok(ToolCall(Lookup(attrs, "server"), Lookup(attrs, "tool")))
    case _ => Err(ValueError("suggested_tools[" + NatToString(i) + "] must be 'server.tool' or mapping"))
  }

  /** A specification is rejected exactly when it is a string without a dot (after
      stripping) or a value that is neither a string, a mapping nor an object. */
  lemma SpecCallRejects(i: nat, spec: PyVal)
    ensures SpecCall(i, spec).Err? <==>
      (spec.PStr? && '.' !in Strip(spec.s)) || !(spec.PStr? || spec.Mapping? || spec.Object?)
  {
  }

  /** A string specification splits at its first dot: the server has no dot, the tool is
      everything after it, dots included, and joining them back gives the stripped text. */
  lemma StringSpecSplit(i: nat, s: string)
    requires SpecCall(i, PStr(s)).Ok?
    ensures var c := SpecCall(i, PStr(s)).value;
      c.server.PStr? && c.tool.PStr? && '.' !in c.server.s
      && Strip(s) == c.server.s + "." + c.tool.s
  {
  }

  /** The calls for the specifications from index `from` on, or the error of the first that fails. */
  function CallsFrom(specs: seq<PyVal>, from: nat): (r: Result<seq<ToolCall>, Exception>)
    requires from <= |specs|
    ensures r.Ok? ==> (|r.value| == |specs| - from
      && forall j | from <= j < |specs| :: SpecCall(j, specs[j]) == Ok(r.value[j - from]))
    decreases |specs| - from
  {
    if from == |specs| then Ok([])
    else
      match SpecCall(from, specs[from])
      case Err(e) => Err(e)
      case Ok(c) =>
        match CallsFrom(specs, from + 1)
        case Err(e) => Err(e)
        case Ok(rest) =>
          Ok([c] + rest)
  }

  /** The response `invoke` gives for a step, or the exception it raises. */
  function InvokeSpec(input: seq<(string, PyVal)>): Result<LlmStepResponse, Exception>
  {
    match SpecList(input)
    case Err(e) => Err(e)
    case Ok(specs) =>
      match CallsFrom(specs, 0)
      case Err(e) => Err(e)
      case Ok(calls) => Ok(LlmStepResponse(calls))
  }

  /** Exactly one tool call per specification, in order, when none of them is malformed. */
  lemma InvokeOnePerSpec(input: seq<(string, PyVal)>)
    requires SpecList(input).Ok?
    ensures var specs := SpecList(input).value;
      InvokeSpec(input).Ok? <==> forall j | 0 <= j < |specs| :: SpecCall(j, specs[j]).Ok?
    ensures InvokeSpec(input).Ok? ==>
      var specs := SpecList(input).value;
      var calls := InvokeSpec(input).value.toolCalls;
      |calls| == |specs| && forall j | 0 <= j < |specs| :: Ok(calls[j]) == SpecCall(j, specs[j])
  {
    CallsFromOk(SpecList(input).value, 0);
  }

  /** A name-to-tool index built left to right, so a later tool replaces an earlier one. */
  function IndexByName(tools: seq<BaseTool>): map<string, BaseTool>
  {
    if tools == [] then map[] else IndexByName(tools[..|tools| - 1])[tools[|tools| - 1].name := tools[|tools| - 1]]
  }

  /** The index holds exactly the names of the tools. */
  lemma {:induction false} IndexByNameKeys(tools: seq<BaseTool>)
    ensures IndexByName(tools).Keys == set t | t in tools :: t.name
  {
    if tools != [] {
      var n := |tools|;
      IndexByNameKeys(tools[..n - 1]);
      assert tools == tools[..n - 1] + [tools[n - 1]];
    }
  }

  /** Under each name sits the last tool that carries it. */
  lemma {:induction false} IndexByNameLast(tools: seq<BaseTool>, i: nat)
    requires i < |tools|
    requires forall k | i < k < |tools| :: tools[k].name != tools[i].name
    ensures tools[i].name in IndexByName(tools) && IndexByName(tools)[tools[i].name] == tools[i]
  {
    var n := |tools|;
    if i < n - 1 {
      var pre := tools[..n - 1];
      assert pre[i] == tools[i];
      assert forall k | i < k < |pre| :: pre[k] == tools[k];
      IndexByNameLast(pre, i);
    }
  }

  class LangchainStepExecutor {
    var tools: map<string, BaseTool>

    /** `__init__`: the given tools indexed by name, or no tools at all. */
    constructor (given: Option<seq<BaseTool>>)
      ensures given.Some? ==> tools == IndexByName(given.value)
      ensures given.None? ==> tools == map[]
    {
      var index: map<string, BaseTool> := map[];
      if given.Some? {
        var ts := given.value;
        var i := 0;
        while i < |ts|
          invariant 0 <= i <= |ts|
          invariant index == IndexByName(ts[..i])
        {
          assert ts[..i + 1][..i] == ts[..i];
          index := index[ts[i].name := ts[i]];
          i := i + 1;
        }
        assert ts[..i] == ts;
      }
      tools := index;
    }

    /** `invoke`: one tool call per specification, built in a loop over the list. */
    method Invoke(input: seq<(string, PyVal)>) returns (r: Result<LlmStepResponse, Exception>)
      ensures r == InvokeSpec(input)
    {
      var specs := SpecList(input);
      if specs.Err? {
        return Err(specs.error);
      }
      var list := specs.value;
      var calls: seq<ToolCall> := [];
      var i := 0;
      while i < |list|
        invariant 0 <= i <= |list|
        invariant |calls| == i && forall j | 0 <= j < i :: SpecCall(j, list[j]) == Ok(calls[j])
      {
        var c := SpecCall(i, list[i]);
        if c.Err? {
          CallsFirstError(list, i);
          return Err(c.error);
        }
        calls := calls + [c.value];
        i := i + 1;
      }
      CallsAllOk(list, calls);
      r := Ok(LlmStepResponse(calls));
    }
  }

  /** The calls from `from` on succeed exactly when every specification there does. */
  lemma {:induction false} CallsFromOk(specs: seq<PyVal>, from: nat)
    requires from <= |specs|
    ensures CallsFrom(specs, from).Ok? <==> forall j | from <= j < |specs| :: SpecCall(j, specs[j]).Ok?
    decreases |specs| - from
  {
    if from < |specs| {
      CallsFromOk(specs, from + 1);
    }
  }

  lemma {:induction false} CallsFirstError(specs: seq<PyVal>, i: nat)
    requires i < |specs| && SpecCall(i, specs[i]).Err?
    requires forall j | 0 <= j < i :: SpecCall(j, specs[j]).Ok?
    ensures CallsFrom(specs, 0) == Err(SpecCall(i, specs[i]).error)
  {
    CallsFirstErrorFrom(specs, 0, i);
  }

  lemma {:induction false} CallsFirstErrorFrom(specs: seq<PyVal>, from: nat, i: nat)
    requires from <= i < |specs| && SpecCall(i, specs[i]).Err?
    requires forall j | from <= j < i :: SpecCall(j, specs[j]).Ok?
    ensures CallsFrom(specs, from) == Err(SpecCall(i, specs[i]).error)
    decreases i - from
  {
    var c := SpecCall(from, specs[from]);
    if from < i {
      assert c.Ok?;
      CallsFirstErrorFrom(specs, from + 1, i);
      assert CallsFrom(specs, from + 1).Err?;
    } else {
      assert c.Err?;
    }
  }

  lemma {:induction false} CallsAllOk(specs: seq<PyVal>, calls: seq<ToolCall>)
    requires |calls| == |specs| && forall j | 0 <= j < |specs| :: SpecCall(j, specs[j]) == Ok(calls[j])
    ensures CallsFrom(specs, 0) == Ok(calls)
  {
    CallsAllOkFrom(specs, calls, 0);
    assert calls[0..] == calls;
  }

  lemma {:induction false} CallsAllOkFrom(specs: seq<PyVal>, calls: seq<ToolCall>, from: nat)
    requires from <= |specs|
    requires |calls| == |specs| && forall j | 0 <= j < |specs| :: SpecCall(j, specs[j]) == Ok(calls[j])
    ensures CallsFrom(specs, from) == Ok(calls[from..])
    decreases |specs| - from
  {
    if from < |specs| {
      CallsAllOkFrom(specs, calls, from + 1);
      var c := calls[from];
      assert SpecCall(from, specs[from]) == Ok(c);
      assert CallsFrom(specs, from) == Ok([c] + calls[from + 1..]);
      assert calls[from..] == [c] + calls[from + 1..];
    } else {
      assert calls[from..] == [];
    }
  }
}
