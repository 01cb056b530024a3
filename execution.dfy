/** The execution side: building the executor prompt, reading a tool-intent array out of
    the executor's reply, and turning intents into tool calls.

    The language-model provider, the JSON parser and the serialiser are parameters. The
    regular expression `\[\s*\{.*?\}\s*\]` (with `re.DOTALL`) that finds the fallback span
    is written out (`ArraySpan`), since its leftmost, non-greedy match is what decides
    which text is parsed. */
module Execution {
  import opened Common
  import opened Json
  import opened Schemas

  datatype ToolCall = ToolCall(server: string, tool: string, args: Option<Fields>)

  datatype LlmStepResponse = LlmStepResponse(toolCalls: seq<ToolCall>)

  /** What the provider's `generate_response` does with a prompt: reply with a value, or raise. */
  datatype Reply = Replied(value: Json) | Raised(error: Exception)

  /** A `GenericExecutionLLM` with its collaborators: the provider, `json.loads`, the two
      `json.dumps` it calls (`dumpsUnicode` with `ensure_ascii=False` for the context of
      the prompt, `dumps` with the default escaping of non-ASCII text for a reply that is
      not a string), Python's `str()` of a non-string value, and the regular expression
      engine `jsonschema` uses for `patternProperties`. */
  datatype ExecutionLlm = GenericExecutionLlm(
    provider: string -> Reply,
    parse: Parser,
    dumpsUnicode: Serializer,
    dumps: Serializer,
    show: Json -> string,
    search: Search)

  /** `EXEC_SYSTEM_PROMPT`, line by line. */
  const ExecSystemLines: seq<string> := [
    "You are the Execution LLM inside ShardGuard.",
    "Output ONLY a JSON array of tool intents. No text, no code fences.",
    "Each item: {\"server\": \"...\", \"tool\": \"...\", \"args\": { ...optional... }}",
    "Do not include secrets, credentials, or opaque tokens."]

  const ExecSystemPrompt := Join("\n", ExecSystemLines)

  const ExecTrailer := "Return ONLY a JSON array (no prose)."

  /** The text an f-string interpolates for `x or ''`. */
  function TaskText(task: Json, show: Json -> string): (r: string)
    ensures !Truthy(task) ==> r == ""
    ensures task.Str? ==> r == task.s
  {
    if !Truthy(task) then "" else if task.Str? then task.s else show(task)
  }

  /** `_build_exec_prompt`. */
  function BuildExecPrompt(task: Json, ctx: Json, dumps: Serializer, show: Json -> string): (r: string)
  {
    ExecSystemPrompt + "\n\nTask:\n" + TaskText(task, show)
    + "\n\nContext (JSON):\n" + dumps(OrElse(ctx, Obj([]))) + "\n\n" + ExecTrailer
  }

  /** The prompt opens with the system prompt, carries the task text right after the
      `Task:` line, and closes with the fixed instruction; a missing context is sent as `{}`. */
  lemma BuildExecPromptLayout(task: Json, ctx: Json, dumps: Serializer, show: Json -> string)
    ensures var r := BuildExecPrompt(task, ctx, dumps, show);
      var head := ExecSystemPrompt + "\n\nTask:\n";
      var t := TaskText(task, show);
      && StartsWith(r, head)
      && |head| + |t| <= |r| && r[|head|..|head| + |t|] == t
      && |ExecTrailer| <= |r| && r[|r| - |ExecTrailer|..] == ExecTrailer
    ensures !Truthy(ctx) ==> BuildExecPrompt(task, ctx, dumps, show) == BuildExecPrompt(task, Obj([]), dumps, show)
  {
    var head := ExecSystemPrompt + "\n\nTask:\n";
    var mid := "\n\nContext (JSON):\n" + dumps(OrElse(ctx, Obj([]))) + "\n\n";
    PromptLayout(head, TaskText(task, show), mid, ExecTrailer);
  }

  /** Where the pieces of a prompt built by concatenation sit in it. */
  lemma PromptLayout(head: string, t: string, mid: string, trailer: string)
    ensures var r := head + t + mid + trailer;
      && StartsWith(r, head)
      && |head| + |t| <= |r| && r[|head|..|head| + |t|] == t
      && |trailer| <= |r| && r[|r| - |trailer|..] == trailer
  {
    var r := head + t + mid + trailer;
    assert r[..|head|] == head;
    assert r[|head|..|head| + |t|] == t;
    assert r[|r| - |trailer|..] == trailer;
  }

  // ---------------------------------------------------------------------------
  // The fallback span `\[\s*\{.*?\}\s*\]`

  /** The end of the run of whitespace (`\s*`, greedy) that starts at `i`. */
  function SpaceEnd(s: string, i: nat): (r: nat)
    requires i <= |s|
    ensures i <= r <= |s|
    ensures forall j | i <= j < r :: IsSpace(s[j])
    ensures r == |s| || !IsSpace(s[r])
    decreases |s| - i
  {
    if i < |s| && IsSpace(s[i]) then SpaceEnd(s, i + 1) else i
  }

  /** `\[\s*\{` matches at `i`; because `{` is not whitespace, `\s*` cannot give anything back. */
  predicate OpensAt(s: string, i: nat)
  {
    i < |s| && s[i] == '[' && SpaceEnd(s, i + 1) < |s| && s[SpaceEnd(s, i + 1)] == '{'
  }

  /** `\}\s*\]` matches at `k`. */
  predicate ClosesAt(s: string, k: nat)
  {
    k < |s| && s[k] == '}' && SpaceEnd(s, k + 1) < |s| && s[SpaceEnd(s, k + 1)] == ']'
  }

  /** Where `.*?` may start after the opening at `i`. */
  function BodyStart(s: string, i: nat): nat
    requires OpensAt(s, i)
  {
    SpaceEnd(s, i + 1) + 1
  }

  /** The pattern matches at `i`. */
  predicate MatchesAt(s: string, i: nat)
  {
    OpensAt(s, i) && exists k: nat | BodyStart(s, i) <= k < |s| :: ClosesAt(s, k)
  }

  /** The non-greedy `.*?`: the first closing from `k` on. */
  function FirstClose(s: string, k: nat): (r: Option<nat>)
    ensures r.Some? ==> (k <= r.value < |s| && ClosesAt(s, r.value)
      && forall m: nat | k <= m < r.value :: !ClosesAt(s, m))
    ensures r.None? ==> forall m: nat | k <= m < |s| :: !ClosesAt(s, m)
    decreases |s| - k
  {
    if k >= |s| then None
    else if ClosesAt(s, k) then Some(k)
    else FirstClose(s, k + 1)
  }

  /** The leftmost match at or after `i`, as the pair (start, close). */
  function FirstMatch(s: string, i: nat): (r: Option<(nat, nat)>)
    ensures r.Some? ==> (i <= r.value.0 && OpensAt(s, r.value.0)
                         && BodyStart(s, r.value.0) <= r.value.1 < |s| && ClosesAt(s, r.value.1))
    decreases |s| - i
  {
    if i >= |s| then None
    else if OpensAt(s, i) && FirstClose(s, BodyStart(s, i)).Some? then
      Some((i, FirstClose(s, BodyStart(s, i)).value))
    else FirstMatch(s, i + 1)
  }

  /** No match starts in `[a, b)`. */
  predicate NoMatchIn(s: string, a: nat, b: nat)
  {
    forall j: nat | a <= j < b :: !MatchesAt(s, j)
  }

  /** No closing starts in `[a, b)`. */
  predicate NoCloseIn(s: string, a: nat, b: nat)
  {
    forall m: nat | a <= m < b :: !ClosesAt(s, m)
  }

  /** The match found is the leftmost one at or after `i`, cut at the first closing after
      its `{`; when none is found, no position from `i` on starts a match. */
  lemma {:induction false} FirstMatchLeftmost(s: string, i: nat)
    ensures var r := FirstMatch(s, i);
      && (r.Some? ==> MatchesAt(s, r.value.0) && NoMatchIn(s, i, r.value.0)
                      && NoCloseIn(s, BodyStart(s, r.value.0), r.value.1))
      && (r.None? ==> NoMatchFrom(s, i))
    decreases |s| - i
  {
    if i >= |s| {
      NoMatchPastEnd(s, i);
    } else if OpensAt(s, i) && FirstClose(s, BodyStart(s, i)).Some? {
      var k := FirstClose(s, BodyStart(s, i)).value;
      assert ClosesAt(s, k);
    } else {
      NoMatchAt(s, i);
      FirstMatchLeftmost(s, i + 1);
      var r := FirstMatch(s, i + 1);
      if r.Some? {
        NoMatchGrows(s, i, r.value.0);
      } else {
        NoMatchFromGrows(s, i);
      }
    }
  }

  /** No match starts at `i` or later. */
  ghost predicate NoMatchFrom(s: string, i: nat)
  {
    forall j: nat | i <= j :: !MatchesAt(s, j)
  }

  lemma NoMatchPastEnd(s: string, i: nat)
    requires i >= |s|
    ensures NoMatchFrom(s, i)
  {
  }

  lemma NoMatchGrows(s: string, i: nat, b: nat)
    requires !MatchesAt(s, i) && NoMatchIn(s, i + 1, b)
    ensures NoMatchIn(s, i, b)
  {
  }

  lemma NoMatchFromGrows(s: string, i: nat)
    requires !MatchesAt(s, i) && NoMatchFrom(s, i + 1)
    ensures NoMatchFrom(s, i)
  {
  }

  /** Where no opening has a closing after it, the pattern does not match. */
  lemma NoMatchAt(s: string, i: nat)
    requires !(OpensAt(s, i) && FirstClose(s, BodyStart(s, i)).Some?)
    ensures !MatchesAt(s, i)
  {
  }

  /** `re.search(r"\[\s*\{.*?\}\s*\]", text, flags=re.DOTALL).group(0)`, or None. */
  function ArraySpan(s: string): (r: Option<string>)
  {
    var m := FirstMatch(s, 0);
    if m.None? then None else Some(s[m.value.0..SpaceEnd(s, m.value.1 + 1) + 1])
  }

  /** There is no span exactly when no position starts a match. */
  lemma ArraySpanAbsent(s: string)
    ensures ArraySpan(s).None? <==> forall j: nat :: !MatchesAt(s, j)
  {
    FirstMatchLeftmost(s, 0);
  }

  /** The match at `st` is the leftmost one, and `k` is the first closing after its `{`. */
  predicate LeftmostShortest(s: string, st: nat, k: nat)
  {
    && MatchesAt(s, st) && NoMatchIn(s, 0, st)
    && BodyStart(s, st) <= k < |s| && ClosesAt(s, k) && NoCloseIn(s, BodyStart(s, st), k)
  }

  /** The span found is the leftmost match, cut at the first closing after its `{`. */
  lemma ArraySpanIsLeftmostShortest(s: string)
    requires ArraySpan(s).Some?
    ensures exists st: nat, k: nat :: LeftmostShortest(s, st, k) && ArraySpan(s) == Some(s[st..SpaceEnd(s, k + 1) + 1])
  {
    FirstMatchLeftmost(s, 0);
    var (st, k) := FirstMatch(s, 0).value;
    assert LeftmostShortest(s, st, k);
    assert ArraySpan(s) == Some(s[st..SpaceEnd(s, k + 1) + 1]);
  }

  /** The span runs from a `[` to a `]`, with at least a `{` and a `}` between them. */
  lemma ArraySpanBrackets(s: string)
    requires ArraySpan(s).Some?
    ensures var c := ArraySpan(s).value; |c| >= 4 && c[0] == '[' && c[|c| - 1] == ']'
  {
    var (st, k) := FirstMatch(s, 0).value;
    assert ArraySpan(s).value == s[st..SpaceEnd(s, k + 1) + 1];
    SpanBrackets(s, st, k);
  }

  lemma SpanBrackets(s: string, st: nat, k: nat)
    requires OpensAt(s, st) && BodyStart(s, st) <= k && ClosesAt(s, k)
    ensures SpaceEnd(s, k + 1) < |s|
    ensures var c := s[st..SpaceEnd(s, k + 1) + 1]; |c| >= 4 && c[0] == '[' && c[|c| - 1] == ']'
  {
    var e := SpaceEnd(s, k + 1);
    assert s[st] == '[' && s[e] == ']';
    assert st + 2 < k + 1 <= e;
    var c := s[st..e + 1];
    assert c[0] == s[st];
    assert c[|c| - 1] == s[e];
  }

  // ---------------------------------------------------------------------------
  // Reading intents out of a reply

  /** `jsonschema.validate(v, TOOL_INTENTS_SCHEMA)` succeeds. */
  predicate IntentsValid(v: Json, search: Search)
  {
    Validates(ToolIntentsSchema, v, search)
  }

  /** `_extract_json_array`: the direct parse when it gives a schema-valid list, otherwise the
      first fallback span (whose parse or validation error propagates), otherwise `[]`. */
  function ExtractJsonArray(text: Json, parse: Parser, search: Search): (r: Result<seq<Json>, Exception>)
    ensures r.Ok? ==> ToolIntents(Arr(r.value))
    ensures !text.Str? ==> r == Err(ValueError("Execution LLM returned non-string content."))
  {
    if !text.Str? then Err(ValueError("Execution LLM returned non-string content."))
    else
      var direct := parse(text.s);
      if direct.Parsed? && direct.value.Arr? && IntentsValid(direct.value, search) then
        ToolIntentsSchemaMeaning(direct.value, search);
        Ok(direct.value.items)
      else
        match ArraySpan(text.s)
        case None =>
          EmptyIntentArrayValid(search);
          Ok([])
        case Some(candidate) =>
          match parse(candidate)
          case Malformed(m) => Err(DecodeError(m))
          case Parsed(v) =>
            if IntentsValid(v, search) then
              ToolIntentsSchemaMeaning(v, search);
              Ok(v.items)
            else Err(ValidationError(""))
  }

  /** The three stages of `_extract_json_array`, stated separately. */
  lemma ExtractJsonArrayStages(s: string, parse: Parser, search: Search)
    ensures parse(s).Parsed? && ToolIntents(parse(s).value) ==>
      ExtractJsonArray(Str(s), parse, search) == Ok(parse(s).value.items)
    ensures !(parse(s).Parsed? && ToolIntents(parse(s).value)) && ArraySpan(s).None? ==>
      ExtractJsonArray(Str(s), parse, search) == Ok([])
    ensures !(parse(s).Parsed? && ToolIntents(parse(s).value)) && ArraySpan(s).Some? ==>
      var c := parse(ArraySpan(s).value);
      ExtractJsonArray(Str(s), parse, search) ==
        if c.Malformed? then Err(DecodeError(c.message))
        else if ToolIntents(c.value) then Ok(c.value.items)
        else Err(ValidationError(""))
  {
    if parse(s).Parsed? {
      ToolIntentsSchemaMeaning(parse(s).value, search);
    }
    if ArraySpan(s).Some? && parse(ArraySpan(s).value).Parsed? {
      ToolIntentsSchemaMeaning(parse(ArraySpan(s).value).value, search);
    }
  }

  /** `GenericExecutionLLM.propose_tool_intents`: every exception becomes `[]`, and a reply
      that is not a string is serialised before it is read. */
  function ProposeToolIntents(llm: ExecutionLlm, stepContent: Json, ctx: Json): (intents: seq<Json>)
    ensures ToolIntents(Arr(intents))
    ensures llm.provider(BuildExecPrompt(stepContent, ctx, llm.dumpsUnicode, llm.show)).Raised? ==> intents == []
  {
    var prompt := BuildExecPrompt(stepContent, ctx, llm.dumpsUnicode, llm.show);
    match llm.provider(prompt)
    case Raised(_) => []
    case Replied(raw) =>
      var text := if raw.Str? then raw else Str(llm.dumps(raw));
      match ExtractJsonArray(text, llm.parse, llm.search)
      case Ok(xs) => xs
      case Err(_) => []
  }

  /** On a string, `_extract_json_array` never raises its `ValueError`. */
  lemma ExtractStringNoValueError(s: string, parse: Parser, search: Search)
    ensures var x := ExtractJsonArray(Str(s), parse, search); !(x.Err? && x.error.ValueError?)
  {
  }

  /** The reply text is always a string, so the `ValueError` of `_extract_json_array` cannot
      reach `propose_tool_intents`; what it returns is the extraction's list, or `[]` on any
      error. */
  lemma ProposeToolIntentsReads(llm: ExecutionLlm, stepContent: Json, ctx: Json)
    requires llm.provider(BuildExecPrompt(stepContent, ctx, llm.dumpsUnicode, llm.show)).Replied?
    ensures var raw := llm.provider(BuildExecPrompt(stepContent, ctx, llm.dumpsUnicode, llm.show)).value;
      var s := if raw.Str? then raw.s else llm.dumps(raw);
      var x := ExtractJsonArray(Str(s), llm.parse, llm.search);
      && !(x.Err? && x.error.ValueError?)
      && ProposeToolIntents(llm, stepContent, ctx) == if x.Ok? then x.value else []
  {
    var raw := llm.provider(BuildExecPrompt(stepContent, ctx, llm.dumpsUnicode, llm.show)).value;
    var s := if raw.Str? then raw.s else llm.dumps(raw);
    assert (if raw.Str? then raw else Str(llm.dumps(raw))) == Str(s);
    ExtractStringNoValueError(s, llm.parse, llm.search);
  }

  /** The tool call for one schema-valid intent. */
  function IntentToCall(it: Json): (c: ToolCall)
    requires ToolIntent(it)
    ensures Get(it.fields, "server") == Some(Str(c.server))
    ensures Get(it.fields, "tool") == Some(Str(c.tool))
    ensures c.args.None? <==> !HasKey(it.fields, "args")
    ensures c.args.Some? ==> Get(it.fields, "args") == Some(Obj(c.args.value))
  {
    IntentFieldsOf(it, "server");
    IntentFieldsOf(it, "tool");
    IntentFieldsOf(it, "args");
    var args := Get(it.fields, "args");
    ToolCall(Get(it.fields, "server").value.s, Get(it.fields, "tool").value.s,
             if args.Some? then Some(args.value.fields) else None)
  }

  /** What the schema says of the binding a key has in a valid intent. */
  lemma IntentFieldsOf(it: Json, k: string)
    requires ToolIntent(it)
    ensures HasKey(it.fields, k) && (k == "server" || k == "tool") ==> Get(it.fields, k).value.Str?
    ensures HasKey(it.fields, k) && k == "args" ==> Get(it.fields, k).value.Obj?
  {
    if HasKey(it.fields, k) {
      GetFound(it.fields, k);
      var i :| 0 <= i < |it.fields| && it.fields[i] == (k, Get(it.fields, k).value);
      assert IntentField(it.fields[i]);
    }
  }

  /** The step text and context `run_step` hands to the executor: `content` (default "")
      and `nonsecret_context` (a falsy one becomes `{}`). */
  function StepContent(step: Fields): Json
  {
    GetOr(step, "content", Str(""))
  }

  function StepContext(step: Fields): (ctx: Json)
    ensures Truthy(ctx) || ctx == Obj([])
  {
    OrElse(GetOr(step, "nonsecret_context", Null), Obj([]))
  }

  /** The loop of `run_step`: one tool call per intent, in order. */
  method ToolCallsOf(intents: seq<Json>) returns (calls: seq<ToolCall>)
    requires ToolIntents(Arr(intents))
    ensures |calls| == |intents|
    ensures forall i | 0 <= i < |intents| :: calls[i] == IntentToCall(intents[i])
  {
    calls := [];
    var i := 0;
    while i < |intents|
      invariant 0 <= i <= |intents|
      invariant |calls| == i
      invariant forall j | 0 <= j < i :: calls[j] == IntentToCall(intents[j])
    {
      calls := calls + [IntentToCall(intents[i])];
      i := i + 1;
    }
  }

  /** `StepExecutor.run_step`: one tool call per proposed intent, in order. */
  method RunStep(llm: ExecutionLlm, step: Fields) returns (resp: LlmStepResponse)
    ensures var intents := ProposeToolIntents(llm, StepContent(step), StepContext(step));
      && |resp.toolCalls| == |intents|
      && forall i | 0 <= i < |intents| :: resp.toolCalls[i] == IntentToCall(intents[i])
  {
    var intents := ProposeToolIntents(llm, StepContent(step), StepContext(step));
    var calls := ToolCallsOf(intents);
    resp := LlmStepResponse(calls);
  }
}
