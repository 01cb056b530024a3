/** The coordination service: it formats the user's prompt with the planning template,
    asks the planner for a plan, and runs each sub-task through a fresh execution LLM,
    issuing the tool calls it proposes and gating each result by the step's output schema.

    The planner, the execution-LLM factory and the schema check are parameters. The
    service records, as ghost traces, the prompts it sends to the planner and the tool
    calls it issues. */
module Coordination {
  import opened Common
  import opened Json
  import opened Models
  import opened Validator
  import opened Execution
  import Mcp = McpIntegration

  // ---------------------------------------------------------------------------
  // The planning template and `str.format`

  /** A template as `str.format` parses it: literal text, the escapes `{{` and `}}`, and
      the field `{user_prompt}`. */
  datatype Piece = Text(s: string) | OpenBrace | CloseBrace | UserPrompt

  /** One character as written in a template: a brace doubled, anything else as is. */
  function EscapeChar(c: char): (r: string)
    ensures |r| >= 1
  {
    if c == '{' then "{{" else if c == '}' then "}}" else [c]
  }

  /** Literal text as written in a template: every brace doubled. */
  function Escape(s: string): (r: string)
    ensures |r| >= |s|
  {
    if s == [] then "" else EscapeChar(s[0]) + Escape(s[1..])
  }

  /** The template as written. */
  function Render(ps: seq<Piece>): string
  {
    if ps == [] then ""
    else
      (match ps[0]
       case Text(s) => Escape(s)
       case OpenBrace => "{{"
       case CloseBrace => "}}"
       case UserPrompt => "{user_prompt}") + Render(ps[1..])
  }

  /** The template with the field filled in. */
  function Expand(ps: seq<Piece>, v: string): string
  {
    if ps == [] then ""
    else
      (match ps[0]
       case Text(s) => s
       case OpenBrace => "{"
       case CloseBrace => "}"
       case UserPrompt => v) + Expand(ps[1..], v)
  }

  function Prepend(p: string, r: Result<string, Exception>): (q: Result<string, Exception>)
    ensures q.Ok? <==> r.Ok?
    ensures r.Ok? ==> q.value == p + r.value
    ensures r.Err? ==> q == r
  {
    match r
    case Ok(s) => Ok(p + s)
    case Err(e) => Err(e)
  }

  /** `t.format(user_prompt=v)`, read left to right: `{{` and `}}` stand for one brace,
      `{user_prompt}` for `v`; any other field, or a lone `}`, raises. */
  function Format(t: string, v: string): (r: Result<string, Exception>)
    decreases |t|
  {
    if t == "" then Ok("")
    else if t[0] == '{' then
      if |t| >= 2 && t[1] == '{' then Prepend("{", Format(t[2..], v))
      else if StartsWith(t, "{user_prompt}") then Prepend(v, Format(t[13..], v))
      else Err(KeyError("replacement field other than user_prompt"))
    else if t[0] == '}' then
      if |t| >= 2 && t[1] == '}' then Prepend("}", Format(t[2..], v))
      else Err(ValueError("Single '}' encountered in format string"))
    else Prepend([t[0]], Format(t[1..], v))
  }

  lemma PrependPrepend(p: string, q: string, r: Result<string, Exception>)
    ensures Prepend(p, Prepend(q, r)) == Prepend(p + q, r)
  {
    if r.Ok? {
      assert p + (q + r.value) == (p + q) + r.value;
    }
  }

  /** Escaped text formats back to itself. */
  lemma {:induction false} FormatEscaped(s: string, rest: string, v: string)
    ensures Format(Escape(s) + rest, v) == Prepend(s, Format(rest, v))
  {
    if s == [] {
      assert Escape(s) + rest == rest;
      if Format(rest, v).Ok? {
        assert "" + Format(rest, v).value == Format(rest, v).value;
      }
    } else {
      var tail := Escape(s[1..]) + rest;
      assert Escape(s) + rest == EscapeChar(s[0]) + tail;
      FormatEscapedChar(s[0], tail, v);
      FormatEscaped(s[1..], rest, v);
      PrependPrepend([s[0]], s[1..], Format(rest, v));
      assert [s[0]] + s[1..] == s;
    }
  }

  /** An escaped character formats back to itself. */
  lemma FormatEscapedChar(c: char, tail: string, v: string)
    ensures Format(EscapeChar(c) + tail, v) == Prepend([c], Format(tail, v))
  {
    var t := EscapeChar(c) + tail;
    assert t[|EscapeChar(c)|..] == tail;
    if c == '{' || c == '}' {
      assert t[0] == c && t[1] == c;
    } else {
      assert t[0] == c;
    }
  }

  /** Formatting a template fills in the field and undoes the escapes, and the value is
      copied verbatim: braces in it are not read as fields, and nothing raises. */
  lemma {:induction false} FormatPieces(ps: seq<Piece>, v: string)
    ensures Format(Render(ps), v) == Ok(Expand(ps, v))
  {
    if ps == [] {
    } else {
      var rest := Render(ps[1..]);
      FormatPieces(ps[1..], v);
      match ps[0]
      case Text(s) => FormatEscaped(s, rest, v);
      case OpenBrace => assert ("{{" + rest)[2..] == rest;
      case CloseBrace => assert ("}}" + rest)[2..] == rest;
      case UserPrompt =>
        var t := "{user_prompt}" + rest;
        assert t[..13] == "{user_prompt}" && t[13..] == rest;
    }
  }

  /** A lone `}` in a template raises `ValueError`. */
  lemma FormatLoneClose(a: string, b: string, v: string)
    requires '{' !in a && '}' !in a
    requires b == [] || b[0] != '}'
    ensures Format(a + "}" + b, v) == Err(ValueError("Single '}' encountered in format string"))
  {
    EscapePlain(a);
    FormatEscaped(a, "}" + b, v);
    assert a + "}" + b == Escape(a) + ("}" + b);
    var t := "}" + b;
    assert t[0] == '}';
    if |t| >= 2 {
      assert t[1] == b[0];
    }
  }

  /** A field other than `user_prompt` raises `KeyError`. */
  lemma FormatOtherField(a: string, b: string, v: string)
    requires '{' !in a && '}' !in a
    ensures Format(a + "{x}" + b, v).Err? && Format(a + "{x}" + b, v).error.KeyError?
  {
    EscapePlain(a);
    FormatEscaped(a, "{x}" + b, v);
    assert a + "{x}" + b == Escape(a) + ("{x}" + b);
    var t := "{x}" + b;
    assert t[0] == '{' && t[1] == 'x';
    assert !StartsWith(t, "{user_prompt}") by {
      if |t| >= 13 {
        assert t[..13][1] == 'x';
      }
    }
  }

  lemma {:induction false} EscapePlain(s: string)
    requires '{' !in s && '}' !in s
    ensures Escape(s) == s
  {
    if s != [] {
      EscapePlain(s[1..]);
      assert [s[0]] + s[1..] == s;
    }
  }

  /** The text before `USER_PROMPT:`, line by line. */
  const PromptIntroLines: seq<string> := [
    "You are ShardGuard. Your task is to analyze user prompts and break them down into a list of subtasks.",
    "",
    "IMPORTANT: Replace all sensitive and private information with reference placeholders, then map these references to the original values. This includes:",
    "- Personal names, usernames, passwords \U{2192} [USERNAME], [PASSWORD], [NAME]",
    "- IP addresses, URLs, server names \U{2192} [IP_ADDRESS], [URL], [SERVER_NAME]",
    "- File paths, database names \U{2192} [FILE_PATH], [DATABASE_NAME]",
    "- Any specific identifiers or credentials \U{2192} [ID], [TOKEN], [KEY]",
    "- Timestamps, dates, and specific values \U{2192} [TIMESTAMP], [DATE], [VALUE]",
    "- etc.",
    "",
    ""]

  const PromptIntro := Join("\n", PromptIntroLines)

  /** What follows the input: the request and the JSON example, whose braces the template
      doubles. */
  const PromptRequest: seq<Piece> := [
    Text("\nBreak down this prompt into subtasks and replace sensitive information with reference placeholders.\n\nRespond with a JSON document in the following format:\n"),
    OpenBrace,
    Text("\n  \"original_prompt\": \"The full original user prompt with sensitive data replaced by reference placeholders like [USERNAME], [PASSWORD], etc.\",\n  \"sub_prompts\": [\n    "),
    OpenBrace,
    Text("\n      \"id\": 1,\n      \"content\": \"Description of the subtask with sensitive data replaced by reference placeholders\",\n      \"opaque_values\": "),
    OpenBrace,
    Text("\n        \"[REFERENCE_NAME]\": \"original_sensitive_value\",\n        \"[ANOTHER_REFERENCE]\": \"another_original_value\"\n      "),
    CloseBrace,
    Text("\n    "),
    CloseBrace,
    Text("\n  ]\n"),
    CloseBrace]

  /** `PLANNING_PROMPT`: the input sits between `USER_PROMPT:` and `END.`. */
  const PlanningPieces: seq<Piece> :=
    [Text(PromptIntro), Text("USER_PROMPT:\n"), UserPrompt, Text("\nEND.\n")] + PromptRequest

  const PlanningPrompt: string := Render(PlanningPieces)

  /** `_format_prompt`. */
  function FormatPrompt(userInput: string): (r: Result<string, Exception>)
    ensures r == Ok(PromptIntro + "USER_PROMPT:\n" + userInput + "\nEND.\n" + Expand(PromptRequest, ""))
  {
    FormatPromptLayout(userInput);
    Format(PlanningPrompt, userInput)
  }

  /** Expanding a template of this shape puts the value between the heading and the end
      marker, and nothing after it depends on the value. */
  lemma ExpandAround(intro: string, heading: string, endMarker: string, rest: seq<Piece>, v: string)
    requires forall i | 0 <= i < |rest| :: !rest[i].UserPrompt?
    ensures Expand([Text(intro), Text(heading), UserPrompt, Text(endMarker)] + rest, v) ==
      intro + heading + v + endMarker + Expand(rest, "")
  {
    var p3 := [Text(endMarker)] + rest;
    var p2 := [UserPrompt] + p3;
    var p1 := [Text(heading)] + p2;
    calc {
      Expand([Text(intro), Text(heading), UserPrompt, Text(endMarker)] + rest, v);
      == { ConsFour(Text(intro), Text(heading), UserPrompt, Text(endMarker), rest); }
      Expand([Text(intro)] + p1, v);
      == { ExpandCons(Text(intro), p1, v); }
      intro + Expand(p1, v);
      == { ExpandCons(Text(heading), p2, v); }
      intro + (heading + Expand(p2, v));
      == { ExpandCons(UserPrompt, p3, v); }
      intro + (heading + (v + Expand(p3, v)));
      == { ExpandCons(Text(endMarker), rest, v); ExpandNoField(rest, v); }
      intro + (heading + (v + (endMarker + Expand(rest, ""))));
      == { ConcatFive(intro, heading, v, endMarker, Expand(rest, "")); }
      intro + heading + v + endMarker + Expand(rest, "");
    }
  }

  lemma ConcatFive<T>(a: seq<T>, b: seq<T>, c: seq<T>, d: seq<T>, e: seq<T>)
    ensures a + (b + (c + (d + e))) == a + b + c + d + e
  {
  }

  lemma ConsFour<T>(a: T, b: T, c: T, d: T, rest: seq<T>)
    ensures [a, b, c, d] + rest == [a] + ([b] + ([c] + ([d] + rest)))
  {
  }

  /** Expanding a template piece by piece. */
  lemma ExpandCons(p: Piece, rest: seq<Piece>, v: string)
    ensures p.Text? ==> Expand([p] + rest, v) == p.s + Expand(rest, v)
    ensures p.UserPrompt? ==> Expand([p] + rest, v) == v + Expand(rest, v)
  {
    assert ([p] + rest)[0] == p && ([p] + rest)[1..] == rest;
  }

  /** The formatted prompt never fails; it is the introduction, `USER_PROMPT:`, the input
      exactly as given, `END.`, and a request that does not depend on the input. */
  lemma FormatPromptLayout(userInput: string)
    ensures Format(PlanningPrompt, userInput) ==
      Ok(PromptIntro + "USER_PROMPT:\n" + userInput + "\nEND.\n" + Expand(PromptRequest, ""))
  {
    FormatPieces(PlanningPieces, userInput);
    PromptRequestHasNoField();
    ExpandAround(PromptIntro, "USER_PROMPT:\n", "\nEND.\n", PromptRequest, userInput);
  }

  /** The formatted prompt holds the input and is longer than it. */
  lemma FormatPromptContainsInput(userInput: string)
    ensures Contains(FormatPrompt(userInput).value, userInput)
    ensures |FormatPrompt(userInput).value| > |userInput|
  {
    ContainsBetween(PromptIntro + "USER_PROMPT:\n", userInput, "\nEND.\n", Expand(PromptRequest, ""));
  }

  lemma ContainsBetween(front: string, x: string, back: string, rest: string)
    requires |front| > 0
    ensures Contains(front + x + back + rest, x) && |front + x + back + rest| > |x|
  {
    Mcp.ContainsSuffix(front, x);
    Mcp.ContainsAppend(front + x, back, x);
    Mcp.ContainsAppend(front + x + back, rest, x);
  }

  lemma PromptRequestHasNoField()
    ensures forall i | 0 <= i < |PromptRequest| :: !PromptRequest[i].UserPrompt?
  {
  }

  lemma {:induction false} ExpandNoField(ps: seq<Piece>, v: string)
    requires forall i | 0 <= i < |ps| :: !ps[i].UserPrompt?
    ensures Expand(ps, v) == Expand(ps, "")
  {
    if ps != [] {
      ExpandNoField(ps[1..], v);
    }
  }

  // ---------------------------------------------------------------------------
  // Steps as dicts

  /** The kinds of step value `_to_dict` tells apart. */
  datatype StepValue =
    | DictStep(fields: Fields)
    | DataclassStep(fields: Fields)
    | ModelStep(subPrompt: SubPrompt)  // a pydantic model, through `model_dump` or `dict`
    | MappingStep(fields: Fields)
    | ObjectStep(attrs: Fields)
    | OtherStep(typeName: string)

  /** `_to_dict`: a dict as it is, a dataclass's fields, a pydantic model's dump, a
      mapping's items, an object's attributes; anything else raises `TypeError`. */
  function ToDict(obj: StepValue): (r: Result<Fields, Exception>)
    ensures r.Err? <==> obj.OtherStep?
    ensures obj.DictStep? ==> r == Ok(obj.fields)
    ensures obj.ModelStep? ==> r == Ok(SubPromptToJson(obj.subPrompt).fields)
    ensures obj.OtherStep? ==>
      r == Err(TypeError("Unsupported step type: <class '" + obj.typeName + "'>. Provide a dict-like object."))
  {
    match obj
    case DictStep(fields) => Ok(fields)
    case DataclassStep(fields) => Ok(fields)
    case ModelStep(sp) => Ok(SubPromptToJson(sp).fields)
    case MappingStep(fields) => Ok(fields)
    case ObjectStep(attrs) => Ok(attrs)
    case OtherStep(name) => Err(TypeError("Unsupported step type: <class '" + name + "'>. Provide a dict-like object."))
  }

  /** A sub-prompt survives normalisation: its dict validates back to it. */
  lemma ToDictSubPrompt(sp: SubPrompt)
    ensures ToDict(ModelStep(sp)).Ok? && SubPromptFromJson(Obj(ToDict(ModelStep(sp)).value)) == Some(sp)
  {
    SubPromptRoundTrip(sp);
  }

  /** Normalising a normalised step changes nothing. */
  lemma ToDictIdempotent(obj: StepValue)
    requires ToDict(obj).Ok?
    ensures ToDict(DictStep(ToDict(obj).value)) == ToDict(obj)
  {
  }

  /** `check_tool` has no body: it returns `None`, whatever the plan. */
  function CheckTool(planJson: string): (r: Option<bool>)
    ensures r.None?
  {
    None
  }

  /** `Plan.model_validate_json`: parse, then validate. */
  function PlanFromText(text: string, parse: Parser): (r: Result<Plan, Exception>)
    ensures r.Ok? <==> parse(text).Parsed? && PlanFromJson(parse(text).value).Some?
    ensures r.Ok? ==> r.value == PlanFromJson(parse(text).value).value
    ensures r.Err? ==> r.error.ValidationError?
  {
    match parse(text)
    case Malformed(m) => Err(ValidationError(m))
    case Parsed(j) =>
      match PlanFromJson(j)
      case Some(p) => Ok(p)
      case None => Err(ValidationError("validation error for Plan"))
  }

  // ---------------------------------------------------------------------------
  // Tool calls

  /** A tool call as issued: server, tool and arguments. */
  datatype Request = Request(server: string, tool: string, arguments: Fields)

  /** `per_tool_args`: an empty dict updated with the call's arguments when it has any. */
  function CallArgs(c: ToolCall): (r: Fields)
    ensures forall k :: Get(r, k) == if c.args.Some? then Get(c.args.value, k) else None
  {
    if c.args.Some? && c.args.value != [] then Update([], c.args.value)
    else
      assert forall k :: !HasKey([], k);
      []
  }

  function RequestOf(c: ToolCall): Request
  {
    Request(c.server, c.tool, CallArgs(c))
  }

  /** The result of `call_tool` as the validator receives it: the text, or `None`. */
  function ToolOutput(mcp: Mcp.McpClient, q: Request): Json
  {
    match mcp.CallTool(q.server, q.tool, q.arguments)
    case Some(text) => Str(text)
    case None => Null
  }

  /** What validating the result of one call raises, if anything. */
  function Outcome(mcp: Mcp.McpClient, c: ToolCall, schema: Json, check: SchemaCheck): Option<Exception>
  {
    ValidateOutput(ToolOutput(mcp, RequestOf(c)), schema, "Tool Call", check)
  }

  /** Running items in order, each issuing some requests and perhaps raising: the requests
      of every item up to and including the first that raises, and what it raised. */
  function RunAll<T>(xs: seq<T>, run: T -> (seq<Request>, Option<Exception>)): (r: (seq<Request>, Option<Exception>))
  {
    if xs == [] then ([], None)
    else
      var first := run(xs[0]);
      if first.1.Some? then first
      else
        var rest := RunAll(xs[1..], run);
        (first.0 + rest.0, rest.1)
  }

  /** One turn of a loop over the items: with `issued` the requests of the items before
      position `i`, the run either ends with item `i` or goes on from `i + 1`. */
  lemma RunAllStep<T>(xs: seq<T>, i: nat, run: T -> (seq<Request>, Option<Exception>), issued: seq<Request>)
    requires i < |xs|
    requires RunAll(xs, run).0 == issued + RunAll(xs[i..], run).0
    requires RunAll(xs, run).1 == RunAll(xs[i..], run).1
    ensures var first := run(xs[i]);
      && (first.1.Some? ==> RunAll(xs, run) == (issued + first.0, first.1))
      && (first.1.None? ==> RunAll(xs, run).0 == (issued + first.0) + RunAll(xs[i + 1..], run).0)
      && (first.1.None? ==> RunAll(xs, run).1 == RunAll(xs[i + 1..], run).1)
  {
    var ys := xs[i..];
    assert ys[0] == xs[i];
    assert ys[1..] == xs[i + 1..];
    var first := run(xs[i]);
    if first.1.None? {
      var rest := RunAll(xs[i + 1..], run);
      assert RunAll(ys, run) == (first.0 + rest.0, rest.1);
      assert issued + (first.0 + rest.0) == (issued + first.0) + rest.0;
    } else {
      assert RunAll(ys, run) == first;
    }
  }

  /** The run starts from the whole sequence with nothing issued, and a run past the end
      has issued everything. */
  lemma RunAllStart<T>(xs: seq<T>, run: T -> (seq<Request>, Option<Exception>))
    ensures RunAll(xs, run).0 == [] + RunAll(xs[0..], run).0
    ensures RunAll(xs, run).1 == RunAll(xs[0..], run).1
    ensures RunAll(xs[|xs|..], run) == ([], None)
  {
    assert xs[0..] == xs;
    assert xs[|xs|..] == [];
  }

  /** How a call runs, given what validating its result raises: it issues its request,
      then raises that. */
  function CallRunner(out: ToolCall -> Option<Exception>): ToolCall -> (seq<Request>, Option<Exception>)
  {
    c => ([RequestOf(c)], out(c))
  }

  /** What validating each call's result raises, on this client and against this schema. */
  function Outcomes(mcp: Mcp.McpClient, schema: Json, check: SchemaCheck): ToolCall -> Option<Exception>
  {
    c => Outcome(mcp, c, schema, check)
  }

  /** The calls `_execute_step_tools` issues, one per tool call in order, up to and
      including the first whose result fails validation, and that failure. */
  function StepToolsRun(mcp: Mcp.McpClient, calls: seq<ToolCall>, schema: Json, check: SchemaCheck): (r: (seq<Request>, Option<Exception>))
  {
    RunAll(calls, CallRunner(Outcomes(mcp, schema, check)))
  }

  /** The calls issued are the proposed ones, in order: a prefix of them. */
  lemma {:induction false} CallsIssued(calls: seq<ToolCall>, out: ToolCall -> Option<Exception>)
    ensures var r := RunAll(calls, CallRunner(out));
      |r.0| <= |calls| && forall i | 0 <= i < |r.0| :: r.0[i] == RequestOf(calls[i])
  {
    if calls != [] {
      var f := CallRunner(out);
      assert f(calls[0]) == ([RequestOf(calls[0])], out(calls[0]));
      CallsIssued(calls[1..], out);
      if out(calls[0]).None? {
        var r := RunAll(calls, f);
        var rest := RunAll(calls[1..], f);
        assert r.0 == [RequestOf(calls[0])] + rest.0;
        forall i | 1 <= i < |r.0| ensures r.0[i] == RequestOf(calls[i]) {
          assert r.0[i] == rest.0[i - 1] && calls[i] == calls[1..][i - 1];
        }
      }
    }
  }

  /** Nothing is raised exactly when no call's result fails, and then every call is issued. */
  lemma {:induction false} CallsAllPass(calls: seq<ToolCall>, out: ToolCall -> Option<Exception>)
    ensures RunAll(calls, CallRunner(out)).1.None? <==> forall i | 0 <= i < |calls| :: out(calls[i]).None?
    ensures RunAll(calls, CallRunner(out)).1.None? ==> |RunAll(calls, CallRunner(out)).0| == |calls|
  {
    if calls != [] {
      var f := CallRunner(out);
      assert f(calls[0]) == ([RequestOf(calls[0])], out(calls[0]));
      CallsAllPass(calls[1..], out);
      assert forall i | 1 <= i < |calls| :: calls[i] == calls[1..][i - 1];
    }
  }

  /** When something is raised, it is the failure of the last call issued, and every
      earlier call passed. */
  lemma {:induction false} CallsStop(calls: seq<ToolCall>, out: ToolCall -> Option<Exception>)
    requires RunAll(calls, CallRunner(out)).1.Some?
    ensures var r := RunAll(calls, CallRunner(out));
      && 1 <= |r.0| <= |calls| && r.1 == out(calls[|r.0| - 1])
      && forall i | 0 <= i < |r.0| - 1 :: out(calls[i]).None?
  {
    var f := CallRunner(out);
    assert f(calls[0]) == ([RequestOf(calls[0])], out(calls[0]));
    if out(calls[0]).None? {
      var r := RunAll(calls, f);
      var rest := RunAll(calls[1..], f);
      assert r.0 == [RequestOf(calls[0])] + rest.0 && r.1 == rest.1;
      CallsStop(calls[1..], out);
      assert calls[|r.0| - 1] == calls[1..][|rest.0| - 1];
      forall i | 1 <= i < |r.0| - 1 ensures out(calls[i]).None? {
        assert calls[i] == calls[1..][i - 1];
      }
    }
  }

  /** Without an output schema, every proposed call is issued and nothing is raised. */
  lemma NoSchemaIssuesAll(mcp: Mcp.McpClient, calls: seq<ToolCall>, schema: Json, check: SchemaCheck)
    requires !Truthy(schema)
    ensures StepToolsRun(mcp, calls, schema, check).1.None?
    ensures |StepToolsRun(mcp, calls, schema, check).0| == |calls|
  {
    var out := Outcomes(mcp, schema, check);
    forall i | 0 <= i < |calls| ensures out(calls[i]).None? {
      assert out(calls[i]) == Outcome(mcp, calls[i], schema, check);
    }
    CallsAllPass(calls, out);
  }

  /** One call of `_execute_step_tools`: the request built from the call, issued, and its
      result validated. */
  method IssueCall(mcp: Mcp.McpClient, c: ToolCall, schema: Json, check: SchemaCheck)
    returns (q: Request, raised: Option<Exception>)
    ensures q == RequestOf(c) && raised == Outcome(mcp, c, schema, check)
  {
    q := Request(c.server, c.tool, CallArgs(c));
    var result := mcp.CallTool(q.server, q.tool, q.arguments);
    var output := if result.Some? then Str(result.value) else Null;
    raised := ValidateOutput(output, schema, "Tool Call", check);
  }

  /** `f` runs a call as `_execute_step_tools` does on this client and against this
      schema: it issues the call's request, then raises what validating the result raises. */
  ghost predicate RunsCalls(f: ToolCall -> (seq<Request>, Option<Exception>), mcp: Mcp.McpClient, schema: Json, check: SchemaCheck)
  {
    forall c {:trigger Outcome(mcp, c, schema, check)} :: f(c) == ([RequestOf(c)], Outcome(mcp, c, schema, check))
  }

  /** The loop of `_execute_step_tools`, stated for any `f` that runs calls as it does: it
      calls each tool in order and validates its result, stopping at the first failure;
      `issued` is the calls made. */
  method IssueEach(mcp: Mcp.McpClient, calls: seq<ToolCall>, schema: Json, check: SchemaCheck,
                   ghost f: ToolCall -> (seq<Request>, Option<Exception>))
    returns (ghost issued: seq<Request>, raised: Option<Exception>)
    requires RunsCalls(f, mcp, schema, check)
    ensures (issued, raised) == RunAll(calls, f)
  {
    RunAllStart(calls, f);
    issued := [];
    var i := 0;
    while i < |calls|
      invariant 0 <= i <= |calls|
      invariant RunAll(calls, f).0 == issued + RunAll(calls[i..], f).0
      invariant RunAll(calls, f).1 == RunAll(calls[i..], f).1
    {
      var q, e := IssueCall(mcp, calls[i], schema, check);
      assert f(calls[i]) == ([q], e);
      RunAllStep(calls, i, f, issued);
      issued := issued + [q];
      if e.Some? {
        return issued, e;
      }
      i := i + 1;
    }
    assert issued + [] == issued;
    return issued, None;
  }

  /** `_execute_step_tools`'s loop over the proposed calls. */
  method IssueCalls(mcp: Mcp.McpClient, calls: seq<ToolCall>, schema: Json, check: SchemaCheck)
    returns (ghost issued: seq<Request>, raised: Option<Exception>)
    ensures (issued, raised) == StepToolsRun(mcp, calls, schema, check)
  {
    issued, raised := IssueEach(mcp, calls, schema, check, CallRunner(Outcomes(mcp, schema, check)));
  }

  /** The response `run_step` gives for a step. */
  function StepResponse(llm: ExecutionLlm, step: Fields): (resp: LlmStepResponse)
    ensures var intents := ProposeToolIntents(llm, StepContent(step), StepContext(step));
      |resp.toolCalls| == |intents| && forall i | 0 <= i < |intents| :: resp.toolCalls[i] == IntentToCall(intents[i])
  {
    var intents := ProposeToolIntents(llm, StepContent(step), StepContext(step));
    LlmStepResponse(seq(|intents|, i requires 0 <= i < |intents| => IntentToCall(intents[i])))
  }

  /** The execution LLM `make_execution_llm` builds for a provider, model and API key. */
  type LlmFactory = (string, string, Option<string>) -> ExecutionLlm

  /** One task of `handle_subtasks`: normalised, run by a newly made execution LLM, and
      its calls issued; a task that cannot be normalised raises before any call. */
  function TaskRun(mcp: Mcp.McpClient, t: StepValue, makeLlm: LlmFactory, provider: string, model: string,
                   apiKey: Option<string>, check: SchemaCheck): (r: (seq<Request>, Option<Exception>))
  {
    match ToDict(t)
    case Err(e) => ([], Some(e))
    case Ok(step) =>
      StepToolsRun(mcp, StepResponse(makeLlm(provider, model, apiKey), step).toolCalls,
                   GetOr(step, "output_schema", Null), check)
  }

  function TaskRunner(mcp: Mcp.McpClient, makeLlm: LlmFactory, provider: string, model: string,
                      apiKey: Option<string>, check: SchemaCheck): StepValue -> (seq<Request>, Option<Exception>)
  {
    t => TaskRun(mcp, t, makeLlm, provider, model, apiKey, check)
  }

  /** What `handle_subtasks` does with the tasks: each is run in order, and the first
      exception ends the run. */
  function SubtasksRun(mcp: Mcp.McpClient, tasks: seq<StepValue>, makeLlm: LlmFactory, provider: string, model: string,
                       apiKey: Option<string>, check: SchemaCheck): (r: (seq<Request>, Option<Exception>))
  {
    RunAll(tasks, TaskRunner(mcp, makeLlm, provider, model, apiKey, check))
  }

  /** Running two lists in a row: the second list runs only when the first raised nothing. */
  lemma {:induction false} RunAllAppend<T>(xs: seq<T>, ys: seq<T>, run: T -> (seq<Request>, Option<Exception>))
    ensures RunAll(xs, run).1.Some? ==> RunAll(xs + ys, run) == RunAll(xs, run)
    ensures RunAll(xs, run).1.None? ==>
      RunAll(xs + ys, run) == (RunAll(xs, run).0 + RunAll(ys, run).0, RunAll(ys, run).1)
  {
    if xs == [] {
      assert xs + ys == ys;
      assert [] + RunAll(ys, run).0 == RunAll(ys, run).0;
    } else {
      assert (xs + ys)[0] == xs[0] && (xs + ys)[1..] == xs[1..] + ys;
      RunAllAppend(xs[1..], ys, run);
      var first := run(xs[0]);
      if first.1.Some? {
        assert RunAll(xs + ys, run) == first == RunAll(xs, run);
      } else {
        var tail := RunAll(xs[1..] + ys, run);
        assert RunAll(xs + ys, run) == (first.0 + tail.0, tail.1);
        assert RunAll(xs, run) == (first.0 + RunAll(xs[1..], run).0, RunAll(xs[1..], run).1);
        if RunAll(xs[1..], run).1.None? {
          AppendAssoc(first.0, RunAll(xs[1..], run).0, RunAll(ys, run).0);
        }
      }
    }
  }

  /** Every task is answered from its own step alone: wherever a task stands, once the
      tasks before it raised nothing, it issues the calls its own step gives, after theirs,
      and whatever ran before it; the tasks after it run only when it raised nothing. */
  lemma SubtasksIndependent(mcp: Mcp.McpClient, before: seq<StepValue>, t: StepValue, after: seq<StepValue>,
                            makeLlm: LlmFactory, provider: string, model: string, apiKey: Option<string>,
                            check: SchemaCheck)
    requires SubtasksRun(mcp, before, makeLlm, provider, model, apiKey, check).1.None?
    ensures var pre := SubtasksRun(mcp, before, makeLlm, provider, model, apiKey, check);
      var own := TaskRun(mcp, t, makeLlm, provider, model, apiKey, check);
      var rest := SubtasksRun(mcp, after, makeLlm, provider, model, apiKey, check);
      var r := SubtasksRun(mcp, before + [t] + after, makeLlm, provider, model, apiKey, check);
      && (own.1.Some? ==> r == (pre.0 + own.0, own.1))
      && (own.1.None? ==> r == (pre.0 + own.0 + rest.0, rest.1))
  {
    var f := TaskRunner(mcp, makeLlm, provider, model, apiKey, check);
    RunAllAround(before, t, after, f);
    assert f(t) == TaskRun(mcp, t, makeLlm, provider, model, apiKey, check);
  }

  /** An item after items that raised nothing runs on its own, and the items after it run
      only when it raised nothing. */
  lemma RunAllAround<T>(before: seq<T>, t: T, after: seq<T>, run: T -> (seq<Request>, Option<Exception>))
    requires RunAll(before, run).1.None?
    ensures var pre, own, rest := RunAll(before, run), run(t), RunAll(after, run);
      && (own.1.Some? ==> RunAll(before + [t] + after, run) == (pre.0 + own.0, own.1))
      && (own.1.None? ==> RunAll(before + [t] + after, run) == (pre.0 + own.0 + rest.0, rest.1))
  {
    assert before + [t] + after == before + ([t] + after);
    RunAllAppend(before, [t] + after, run);
    assert ([t] + after)[0] == t && ([t] + after)[1..] == after;
    var pre := RunAll(before, run);
    var own := run(t);
    var rest := RunAll(after, run);
    if own.1.None? {
      AppendAssoc(pre.0, own.0, rest.0);
    }
  }

  /** A task that cannot be normalised stops the run with `TypeError` before any of its
      calls. */
  lemma SubtasksBadTask(mcp: Mcp.McpClient, name: string, tasks: seq<StepValue>, makeLlm: LlmFactory,
                        provider: string, model: string, apiKey: Option<string>, check: SchemaCheck)
    ensures SubtasksRun(mcp, [OtherStep(name)] + tasks, makeLlm, provider, model, apiKey, check) ==
      ([], Some(TypeError("Unsupported step type: <class '" + name + "'>. Provide a dict-like object.")))
  {
    var f := TaskRunner(mcp, makeLlm, provider, model, apiKey, check);
    assert ([OtherStep(name)] + tasks)[0] == OtherStep(name);
    assert f(OtherStep(name)) == TaskRun(mcp, OtherStep(name), makeLlm, provider, model, apiKey, check);
  }

  lemma AppendAssoc<T>(a: seq<T>, b: seq<T>, c: seq<T>)
    ensures (a + b) + c == a + (b + c)
  {
  }

  /** `run_step`'s answer is the response described by `StepResponse`. */
  lemma RunStepResponse(llm: ExecutionLlm, step: Fields, resp: LlmStepResponse)
    requires var intents := ProposeToolIntents(llm, StepContent(step), StepContext(step));
      |resp.toolCalls| == |intents| && forall i | 0 <= i < |intents| :: resp.toolCalls[i] == IntentToCall(intents[i])
    ensures resp == StepResponse(llm, step)
  {
    assert resp.toolCalls == StepResponse(llm, step).toolCalls;
  }

  // ---------------------------------------------------------------------------
  // The service

  /** `CoordinationService`. `args` starts empty and nothing writes it. */
  class CoordinationService {
    const planner: string -> Result<string, Exception>
    const parse: Parser
    /** The client every `MCPClient()` of the service is: a client is a value fixed by
        the server configuration, so each new one is this one. */
    const client: Mcp.McpClient
    const check: SchemaCheck
    const makeLlm: LlmFactory
    var args: map<string, Json>
    ghost var toolRequests: seq<Request>

    constructor (planner: string -> Result<string, Exception>, parse: Parser, executable: string, serversDir: string,
                 transport: Mcp.Transport, show: Json -> string, check: SchemaCheck, makeLlm: LlmFactory)
      ensures this.planner == planner && this.parse == parse && this.check == check && this.makeLlm == makeLlm
      ensures client == Mcp.NewMcpClient(executable, serversDir, transport, show)
      ensures args == map[] && toolRequests == []
    {
      this.planner := planner;
      this.parse := parse;
      client := Mcp.NewMcpClient(executable, serversDir, transport, show);
      this.check := check;
      this.makeLlm := makeLlm;
      args := map[];
      toolRequests := [];
    }

    /** The plan `handle_prompt` returns once it has the formatted prompt. It fails
        exactly when the planner raises or its answer is not a valid plan; the planner's
        own exception comes back unchanged, and a bad answer gives a validation error. */
    function PlanFor(prompt: string): (r: Result<Plan, Exception>)
      ensures r.Ok? <==> planner(prompt).Ok? && parse(planner(prompt).value).Parsed?
                         && PlanFromJson(parse(planner(prompt).value).value).Some?
      ensures r.Ok? ==> r.value == PlanFromJson(parse(planner(prompt).value).value).value
      ensures planner(prompt).Err? ==> r == Err(planner(prompt).error)
      ensures planner(prompt).Ok? && r.Err? ==> r.error.ValidationError?
    {
      match planner(prompt)
      case Err(e) => Err(e)
      case Ok(planJson) => PlanFromText(planJson, parse)
    }

    /** `handle_prompt`: the planner is asked with the formatted prompt, and its answer
        is validated into a plan; `check_tool`'s answer is ignored. */
    method HandlePrompt(userInput: string) returns (r: Result<Plan, Exception>)
      ensures r == PlanFor(FormatPrompt(userInput).value)
    {
      var prompt := FormatPrompt(userInput).value;
      var planJson := planner(prompt);
      if planJson.Err? {
        return Err(planJson.error);
      }
      var toolCheck := CheckTool(planJson.value);
      r := PlanFromText(planJson.value, parse);
    }

    /** `_execute_step_tools`: one `call_tool` per proposed call, in order, on a new
        client, each result validated against the step's `output_schema`. */
    method ExecuteStepTools(step: Fields, resp: LlmStepResponse) returns (raised: Option<Exception>)
      modifies this
      ensures var run := StepToolsRun(client, resp.toolCalls,
                                      GetOr(step, "output_schema", Null), check);
        toolRequests == old(toolRequests) + run.0 && raised == run.1
      ensures args == old(args)
    {
      ghost var issued;
      issued, raised := IssueCalls(client, resp.toolCalls, GetOr(step, "output_schema", Null), check);
      toolRequests := toolRequests + issued;
    }

    /** One turn of `handle_subtasks`: a new execution LLM and executor, the task
        normalised and run, and its calls issued. */
    method HandleTask(t: StepValue, provider: string, model: string, apiKey: Option<string>)
      returns (raised: Option<Exception>)
      modifies this
      ensures var run := TaskRun(client, t, makeLlm, provider, model, apiKey, check);
        toolRequests == old(toolRequests) + run.0 && raised == run.1
      ensures args == old(args)
    {
      var execLlm := makeLlm(provider, model, apiKey);
      var task := ToDict(t);
      if task.Err? {
        assert old(toolRequests) + [] == toolRequests;
        return Some(task.error);
      }
      var resp := RunStep(execLlm, task.value);
      RunStepResponse(execLlm, task.value, resp);
      raised := ExecuteStepTools(task.value, resp);
    }

    /** `f` runs a task as `handle_subtasks` does with this provider, model and key. */
    ghost predicate RunsTasks(f: StepValue -> (seq<Request>, Option<Exception>), provider: string, model: string,
                              apiKey: Option<string>)
    {
      forall t {:trigger TaskRun(client, t, makeLlm, provider, model, apiKey, check)} ::
        f(t) == TaskRun(client, t, makeLlm, provider, model, apiKey, check)
    }

    /** The loop of `handle_subtasks`, stated for any `f` that runs tasks as it does. */
    method HandleEach(tasks: seq<StepValue>, provider: string, model: string, apiKey: Option<string>,
                      ghost f: StepValue -> (seq<Request>, Option<Exception>))
      returns (raised: Option<Exception>)
      requires RunsTasks(f, provider, model, apiKey)
      modifies this
      ensures toolRequests == old(toolRequests) + RunAll(tasks, f).0 && raised == RunAll(tasks, f).1
      ensures args == old(args)
    {
      RunAllStart(tasks, f);
      ghost var issued: seq<Request> := [];
      var i := 0;
      while i < |tasks|
        invariant 0 <= i <= |tasks|
        invariant toolRequests == old(toolRequests) + issued && args == old(args)
        invariant RunAll(tasks, f).0 == issued + RunAll(tasks[i..], f).0
        invariant RunAll(tasks, f).1 == RunAll(tasks[i..], f).1
      {
        ghost var run := f(tasks[i]);
        RunAllStep(tasks, i, f, issued);
        var e := HandleTask(tasks[i], provider, model, apiKey);
        AppendAssoc(old(toolRequests), issued, run.0);
        issued := issued + run.0;
        if e.Some? {
          return e;
        }
        i := i + 1;
      }
      assert issued + [] == issued;
      return None;
    }

    /** `handle_subtasks`: each task gets its own execution LLM and executor, is normalised,
        run, and has its calls issued; the first exception propagates. */
    method HandleSubtasks(tasks: seq<StepValue>, provider: string, model: string, apiKey: Option<string>)
      returns (raised: Option<Exception>)
      modifies this
      ensures var run := SubtasksRun(client, tasks, makeLlm,
                                     provider, model, apiKey, check);
        toolRequests == old(toolRequests) + run.0 && raised == run.1
      ensures args == old(args)
    {
      raised := HandleEach(tasks, provider, model, apiKey, TaskRunner(client, makeLlm, provider, model, apiKey, check));
    }
  }
}
