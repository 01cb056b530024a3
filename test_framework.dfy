/** The evaluation harness: it reads what one ShardGuard run printed, pulls out the plan
    JSON, the opaque values and the tools that were called, checks them against a test
    case's expectations and gives the run a status.

    Running the CLI itself is not modelled: the text a run prints reaches the harness as a
    function of the test case, and the regular-expression search for "server: tool was
    called" lines as a function of the text. */
module TestFramework {
  import opened Common
  import opened Json
  import Mcp = McpIntegration

  datatype TestStatus = Passed | Failed | Warning | Skipped

  /** One entry of a test case's `sensitivePersonalData`: a dict with `data` and `type`. */
  type SensitiveItem = map<string, string>

  datatype TestCase = TestCase(
    id: int, userPrompt: string, expectedTools: seq<string>, sensitivePersonalData: seq<SensitiveItem>,
    provider: string, model: string, description: Option<string>)

  /** The outcome of one test; the execution time is not modelled. */
  datatype TestResult = TestResult(
    testId: int, status: TestStatus, prompt: string, expectedTools: seq<string>, detectedTools: seq<string>,
    sensitiveDataProtected: bool, rawOutput: string, errors: seq<string>, warnings: seq<string>,
    opaqueValues: Fields)

  /** The dict `parse_output` returns. */
  datatype ParsedOutput = ParsedOutput(jsonData: Option<Json>, toolsCalled: seq<string>, opaqueValues: Fields, errors: seq<string>)

  /** `re.findall` of the tool-call pattern: the (server, tool) pairs, in order. */
  type ToolFinder = string -> seq<(string, string)>

  // ---------------------------------------------------------------------------------
  // Python's collections

  predicate Distinct<T(==)>(xs: seq<T>)
  {
    forall i, j | 0 <= i < j < |xs| :: xs[i] != xs[j]
  }

  /** `list(set(xs))`: every element once. Python leaves the order to the set; the model
      keeps first occurrences in order. */
  function Dedupe(xs: seq<string>): (r: seq<string>)
    ensures Distinct(r)
    ensures forall x :: x in r <==> x in xs
  {
    if xs == [] then []
    else
      var r := Dedupe(xs[..|xs| - 1]);
      assert xs == xs[..|xs| - 1] + [xs[|xs| - 1]];
      if xs[|xs| - 1] in r then r else r + [xs[|xs| - 1]]
  }

  /** The keys of a dict, each once, in the order they were first bound. */
  function Keys(fs: Fields): (r: seq<string>)
    ensures Distinct(r)
    ensures forall k :: k in r <==> HasKey(fs, k)
  {
    var names := seq(|fs|, i requires 0 <= i < |fs| => fs[i].0);
    assert forall k :: k in names <==> HasKey(fs, k) by {
      forall k ensures k in names <==> HasKey(fs, k) {
        GetFound(fs, k);
        if k in names {
          var i :| 0 <= i < |names| && names[i] == k;
          assert fs[i].0 == k;
        }
        if HasKey(fs, k) {
          var i :| 0 <= i < |fs| && fs[i].0 == k;
          assert names[i] == k;
        }
      }
    }
    Dedupe(names)
  }

  /** `d.values()`: the value of each key, in key order. */
  function Values(fs: Fields): (r: seq<Json>)
    ensures |r| == |Keys(fs)| && forall i | 0 <= i < |r| :: Get(fs, Keys(fs)[i]) == Some(r[i])
  {
    var ks := Keys(fs);
    assert forall i | 0 <= i < |ks| :: HasKey(fs, ks[i]) by {
      forall i | 0 <= i < |ks| ensures HasKey(fs, ks[i]) {
        assert ks[i] in ks;
      }
    }
    seq(|ks|, i requires 0 <= i < |ks| => Get(fs, ks[i]).value)
  }

  /** `j[k]` with a string key. */
  function Subscript(j: Json, k: string): (r: Result<Json, Exception>)
    ensures r.Ok? <==> j.Obj? && HasKey(j.fields, k)
    ensures r.Ok? ==> Get(j.fields, k) == Some(r.value)
    ensures j.Obj? && !HasKey(j.fields, k) ==> r == Err(KeyError(k))
  {
    match j
    case Obj(fs) => if HasKey(fs, k) then Ok(Get(fs, k).value) else Err(KeyError(k))
    case Arr(_) => Err(TypeError("list indices must be integers or slices, not str"))
    case Str(_) => Err(TypeError("string indices must be integers, not 'str'"))
    case _ => Err(TypeError("object is not subscriptable"))
  }

  /** `for x in j`: a list's items, a dict's keys, a string's characters. */
  function Iterate(j: Json): (r: Result<seq<Json>, Exception>)
    ensures r.Err? <==> !(j.Arr? || j.Obj? || j.Str?)
    ensures j.Arr? ==> r == Ok(j.items)
    ensures j.Obj? ==> r.Ok? && |r.value| == |Keys(j.fields)| && forall i | 0 <= i < |r.value| :: r.value[i] == Str(Keys(j.fields)[i])
    ensures j.Str? ==> r.Ok? && |r.value| == |j.s| && forall i | 0 <= i < |r.value| :: r.value[i] == Str([j.s[i]])
  {
    match j
    case Arr(items) => Ok(items)
    case Obj(fs) => var ks := Keys(fs); Ok(seq(|ks|, i requires 0 <= i < |ks| => Str(ks[i])))
    case Str(s) => Ok(seq(|s|, i requires 0 <= i < |s| => Str([s[i]])))
    case _ => Err(TypeError("object is not iterable"))
  }

  /** A `for` loop that threads a value through `step` and ends at the first exception. */
  function Fold<T, A>(xs: seq<T>, init: A, step: (A, T) -> Result<A, Exception>): Result<A, Exception>
  {
    if xs == [] then Ok(init)
    else match Fold(xs[..|xs| - 1], init, step)
      case Err(e) => Err(e)
      case Ok(a) => step(a, xs[|xs| - 1])
  }

  lemma FoldSnoc<T, A>(xs: seq<T>, x: T, init: A, step: (A, T) -> Result<A, Exception>)
    ensures Fold(xs + [x], init, step) ==
      match Fold(xs, init, step) case Err(e) => Err(e) case Ok(a) => step(a, x)
  {
    assert (xs + [x])[..|xs|] == xs;
  }

  /** Once the loop has raised, the rest of the sequence is never looked at. */
  lemma {:induction false} FoldRaised<T, A>(xs: seq<T>, n: nat, init: A, step: (A, T) -> Result<A, Exception>)
    requires n <= |xs| && Fold(xs[..n], init, step).Err?
    ensures Fold(xs, init, step) == Fold(xs[..n], init, step)
    decreases |xs| - n
  {
    if n < |xs| {
      FoldSnoc(xs[..n], xs[n], init, step);
      assert xs[..n + 1] == xs[..n] + [xs[n]];
      FoldRaised(xs, n + 1, init, step);
    } else {
      assert xs[..n] == xs;
    }
  }

  // ---------------------------------------------------------------------------------
  // parse_output

  /** The text handed to the JSON parser: from the first "{" up to and including the
      last "\n}\n". The end bound is `rfind + 3`, which is never -1, so only a missing "{"
      skips the parser. */
  function JsonCandidate(output: string): (r: Option<string>)
    ensures r.None? <==> !Contains(output, "{")
  {
    var start := Find(output, "{");
    if start == -1 then None else Some(Slice(output, start, RFind(output, "\n}\n") + 3))
  }

  /** With no closing "\n}\n" the end bound is 2: the parser gets at most two characters,
      and none at all when the first "{" is further in. */
  lemma JsonCandidateWithoutCloser(output: string)
    requires Contains(output, "{") && !Contains(output, "\n}\n")
    ensures |JsonCandidate(output).value| <= 2
    ensures Find(output, "{") >= 2 ==> JsonCandidate(output) == Some("")
  {
    var start := Find(output, "{");
    assert SliceBound(2, |output|) <= 2;
    if start >= 2 {
      assert SliceBound(start, |output|) == start;
    }
  }

  /** With a closing "\n}\n" after the first "{", the parser gets exactly the text from
      that "{" to the end of the last closer. */
  lemma JsonCandidateSpan(output: string)
    requires Contains(output, "{") && RFind(output, "\n}\n") >= Find(output, "{")
    ensures var start, end := Find(output, "{"), RFind(output, "\n}\n") + 3;
      && end <= |output|
      && JsonCandidate(output) == Some(output[start..end])
      && output[start..end][0] == '{'
      && output[start..end][end - start - 3..] == "\n}\n"
  {
    var start, e := Find(output, "{"), RFind(output, "\n}\n");
    assert OccursAt(output, "\n}\n", e);
    assert OccursAt(output, "{", start);
    assert output[start] == output[start..start + 1][0];
    assert output[start..e + 3][e - start..] == output[e..e + 3];
  }

  /** `"sub_prompts" in j` and, when it holds, the items of `j["sub_prompts"]`. */
  function SubPromptsOf(j: Json): (r: Result<Option<seq<Json>>, Exception>)
    ensures j.Obj? && !HasKey(j.fields, "sub_prompts") ==> r == Ok(None)
    ensures j.Obj? && HasKey(j.fields, "sub_prompts") && Get(j.fields, "sub_prompts").value.Arr? ==>
      r == Ok(Some(Get(j.fields, "sub_prompts").value.items))
  {
    match Mcp.InRequired(j, "sub_prompts")
    case Err(e) => Err(e)
    case Ok(present) =>
      if !present then Ok(None)
      else match Subscript(j, "sub_prompts")
        case Err(e) => Err(e)
        case Ok(v) => match Iterate(v)
          case Err(e) => Err(e)
          case Ok(items) => Ok(Some(items))
  }

  /** The message `dict.update` raises for anything but a dict. A list of key/value pairs,
      which Python would also accept, is not modelled. */
  const UpdateError := TypeError("dictionary update sequence element is not a key/value pair")

  /** One sub-prompt's turn of the first loop: its `opaque_values` are merged in. */
  function OpaqueStep(merged: Fields, sp: Json): Result<Fields, Exception>
  {
    match Mcp.InRequired(sp, "opaque_values")
    case Err(e) => Err(e)
    case Ok(present) =>
      if !present then Ok(merged)
      else match Subscript(sp, "opaque_values")
        case Err(e) => Err(e)
        case Ok(v) => if v.Obj? then Ok(Update(merged, v.fields)) else Err(UpdateError)
  }

  /** The body of the first loop for one sub-prompt. */
  method MergeOne(merged: Fields, sp: Json) returns (r: Result<Fields, Exception>)
    ensures r == OpaqueStep(merged, sp)
  {
    var present := Mcp.InRequired(sp, "opaque_values");
    if present.Err? {
      return Err(present.error);
    }
    if !present.value {
      return Ok(merged);
    }
    var v := Subscript(sp, "opaque_values");
    if v.Err? {
      return Err(v.error);
    }
    if !v.value.Obj? {
      return Err(UpdateError);
    }
    return Ok(Update(merged, v.value.fields));
  }

  /** The first loop: the opaque values of all sub-prompts, later ones overriding. */
  method MergeOpaque(subPrompts: seq<Json>) returns (r: Result<Fields, Exception>)
    ensures r == Fold(subPrompts, [], OpaqueStep)
  {
    r := MergeEach(subPrompts, OpaqueStep);
  }

  /** The first loop, stated for any `step` that merges as `OpaqueStep` does. */
  method MergeEach(subPrompts: seq<Json>, ghost step: (Fields, Json) -> Result<Fields, Exception>)
    returns (r: Result<Fields, Exception>)
    requires forall merged, sp {:trigger OpaqueStep(merged, sp)} :: step(merged, sp) == OpaqueStep(merged, sp)
    ensures r == Fold(subPrompts, [], step)
  {
    var merged: Fields := [];
    var i := 0;
    while i < |subPrompts|
      invariant 0 <= i <= |subPrompts|
      invariant Fold(subPrompts[..i], [], step) == Ok(merged)
    {
      FoldSnoc(subPrompts[..i], subPrompts[i], [], step);
      assert subPrompts[..i + 1] == subPrompts[..i] + [subPrompts[i]];
      var next := MergeOne(merged, subPrompts[i]);
      if next.Err? {
        FoldRaised(subPrompts, i + 1, [], step);
        return next;
      }
      merged := next.value;
      i := i + 1;
    }
    assert subPrompts[..i] == subPrompts;
    return Ok(merged);
  }

  /** The opaque values a sub-prompt declares, when it is a dict holding a dict there. */
  function DeclaredOpaque(sp: Json): Fields
  {
    if sp.Obj? && HasKey(sp.fields, "opaque_values") && Get(sp.fields, "opaque_values").value.Obj?
    then Get(sp.fields, "opaque_values").value.fields else []
  }

  /** The value the last sub-prompt that declares `k` gives it. */
  function LastDeclared(subPrompts: seq<Json>, k: string): Option<Json>
  {
    if subPrompts == [] then None
    else if HasKey(DeclaredOpaque(subPrompts[|subPrompts| - 1]), k) then Get(DeclaredOpaque(subPrompts[|subPrompts| - 1]), k)
    else LastDeclared(subPrompts[..|subPrompts| - 1], k)
  }

  /** A sub-prompt the first loop accepts: a dict whose `opaque_values`, if any, is a dict. */
  predicate OpaqueWellFormed(sp: Json)
  {
    sp.Obj? && (HasKey(sp.fields, "opaque_values") ==> Get(sp.fields, "opaque_values").value.Obj?)
  }

  /** When every sub-prompt is well formed, the merged opaque values bind exactly the keys
      some sub-prompt declares, each to the value of its last declaration. */
  lemma {:induction false} MergeOpaqueMeaning(subPrompts: seq<Json>)
    requires forall i | 0 <= i < |subPrompts| :: OpaqueWellFormed(subPrompts[i])
    ensures Fold(subPrompts, [], OpaqueStep).Ok?
    ensures forall k :: Get(Fold(subPrompts, [], OpaqueStep).value, k) == LastDeclared(subPrompts, k)
  {
    if subPrompts != [] {
      var n := |subPrompts|;
      var front, sp := subPrompts[..n - 1], subPrompts[n - 1];
      assert subPrompts == front + [sp];
      MergeOpaqueMeaning(front);
      FoldSnoc(front, sp, [], OpaqueStep);
      assert OpaqueStep(Fold(front, [], OpaqueStep).value, sp) == Ok(Update(Fold(front, [], OpaqueStep).value, DeclaredOpaque(sp)));
    }
  }

  /** The tool a regular-expression hit names: "server.tool", or the tool alone when the
      server part is empty. */
  function HitName(hit: (string, string)): (r: string)
    ensures hit.0 != "" ==> r == hit.0 + "." + hit.1
    ensures hit.0 == "" ==> r == hit.1
  {
    if hit.0 != "" then hit.0 + "." + hit.1 else hit.1
  }

  function Hits(matches: seq<(string, string)>): (r: seq<string>)
    ensures |r| == |matches| && forall i | 0 <= i < |r| :: r[i] == HitName(matches[i])
  {
    seq(|matches|, i requires 0 <= i < |matches| => HitName(matches[i]))
  }

  predicate AllStrings(items: seq<Json>)
  {
    forall i | 0 <= i < |items| :: items[i].Str?
  }

  function Texts(items: seq<Json>): (r: seq<string>)
    requires AllStrings(items)
    ensures |r| == |items| && forall i | 0 <= i < |r| :: Str(r[i]) == items[i]
  {
    seq(|items|, i requires 0 <= i < |items| => items[i].s)
  }

  /** What becomes of a suggested tool that is not a string: Python keeps it in the list,
      and the run then fails when it is hashed or lower-cased. The model raises at once. */
  const ToolNameError := TypeError("tool names must be strings")

  /** One sub-prompt's turn of the second loop: its `suggested_tools` extend the list. */
  function SuggestedStep(tools: seq<string>, sp: Json): Result<seq<string>, Exception>
  {
    match Mcp.InRequired(sp, "suggested_tools")
    case Err(e) => Err(e)
    case Ok(present) =>
      if !present then Ok(tools)
      else match Subscript(sp, "suggested_tools")
        case Err(e) => Err(e)
        case Ok(v) => match Iterate(v)
          case Err(e) => Err(e)
          case Ok(items) => if AllStrings(items) then Ok(tools + Texts(items)) else Err(ToolNameError)
  }

  /** The body of the second loop for one sub-prompt. */
  method ExtendOne(tools: seq<string>, sp: Json) returns (r: Result<seq<string>, Exception>)
    ensures r == SuggestedStep(tools, sp)
  {
    var present := Mcp.InRequired(sp, "suggested_tools");
    if present.Err? {
      return Err(present.error);
    }
    if !present.value {
      return Ok(tools);
    }
    var v := Subscript(sp, "suggested_tools");
    if v.Err? {
      return Err(v.error);
    }
    var items := Iterate(v.value);
    if items.Err? {
      return Err(items.error);
    }
    if !AllStrings(items.value) {
      return Err(ToolNameError);
    }
    return Ok(tools + Texts(items.value));
  }

  /** The second loop: each sub-prompt's suggested tools appended to `tools`. */
  method ExtendSuggested(tools: seq<string>, subPrompts: seq<Json>) returns (r: Result<seq<string>, Exception>)
    ensures r == Fold(subPrompts, tools, SuggestedStep)
  {
    r := ExtendEach(tools, subPrompts, SuggestedStep);
  }

  /** The second loop, stated for any `step` that extends as `SuggestedStep` does. */
  method ExtendEach(tools: seq<string>, subPrompts: seq<Json>, ghost step: (seq<string>, Json) -> Result<seq<string>, Exception>)
    returns (r: Result<seq<string>, Exception>)
    requires forall acc, sp {:trigger SuggestedStep(acc, sp)} :: step(acc, sp) == SuggestedStep(acc, sp)
    ensures r == Fold(subPrompts, tools, step)
  {
    var acc := tools;
    var i := 0;
    while i < |subPrompts|
      invariant 0 <= i <= |subPrompts|
      invariant Fold(subPrompts[..i], tools, step) == Ok(acc)
    {
      FoldSnoc(subPrompts[..i], subPrompts[i], tools, step);
      assert subPrompts[..i + 1] == subPrompts[..i] + [subPrompts[i]];
      var next := ExtendOne(acc, subPrompts[i]);
      if next.Err? {
        FoldRaised(subPrompts, i + 1, tools, step);
        return next;
      }
      acc := next.value;
      i := i + 1;
    }
    assert subPrompts[..i] == subPrompts;
    return Ok(acc);
  }

  /** The second loop only appends: what it starts from stays in front. */
  lemma {:induction false} SuggestedExtends(subPrompts: seq<Json>, tools: seq<string>)
    ensures Fold(subPrompts, tools, SuggestedStep).Ok? <==> Fold(subPrompts, [], SuggestedStep).Ok?
    ensures Fold(subPrompts, tools, SuggestedStep).Ok? ==>
      Fold(subPrompts, tools, SuggestedStep).value == tools + Fold(subPrompts, [], SuggestedStep).value
  {
    if subPrompts != [] {
      var n := |subPrompts|;
      var front, sp := subPrompts[..n - 1], subPrompts[n - 1];
      assert subPrompts == front + [sp];
      SuggestedExtends(front, tools);
      FoldSnoc(front, sp, tools, SuggestedStep);
      FoldSnoc(front, sp, [], SuggestedStep);
      var a := Fold(front, [], SuggestedStep);
      if a.Ok? {
        SuggestedStepShift(tools, a.value, sp);
      }
    }
  }

  /** One sub-prompt's step does not look at what is already gathered. */
  lemma SuggestedStepShift(tools: seq<string>, acc: seq<string>, sp: Json)
    ensures SuggestedStep(tools + acc, sp).Ok? <==> SuggestedStep(acc, sp).Ok?
    ensures SuggestedStep(acc, sp).Ok? ==> SuggestedStep(tools + acc, sp).value == tools + SuggestedStep(acc, sp).value
  {
    var step := SuggestedStep(acc, sp);
    if step.Ok? && step.value != acc {
      var items := Iterate(Subscript(sp, "suggested_tools").value).value;
      assert (tools + acc) + Texts(items) == tools + (acc + Texts(items));
    }
  }

  /** The tools the JSON part adds to the hits: the suggested tools of every sub-prompt,
      when the JSON is truthy and has sub-prompts. */
  function ToolsPart(data: Option<Json>, hits: seq<string>): (r: Result<seq<string>, Exception>)
  {
    if data.None? || !Truthy(data.value) then Ok(hits)
    else match SubPromptsOf(data.value)
      case Err(e) => Err(e)
      case Ok(None) => Ok(hits)
      case Ok(Some(sps)) => Fold(sps, hits, SuggestedStep)
  }

  /** Every hit is kept, and what comes after the hits is the suggested tools. */
  lemma ToolsPartKeepsHits(data: Option<Json>, hits: seq<string>)
    ensures ToolsPart(data, hits).Ok? <==> ToolsPart(data, []).Ok?
    ensures ToolsPart(data, hits).Ok? ==> ToolsPart(data, hits).value == hits + ToolsPart(data, []).value
  {
    if data.Some? && Truthy(data.value) {
      var sps := SubPromptsOf(data.value);
      if sps.Ok? && sps.value.Some? {
        SuggestedExtends(sps.value.value, hits);
      }
    }
  }

  /** The JSON part of `parse_output`: the decoded JSON, the merged opaque values, and
      the parse error, if any. */
  function JsonPart(output: string, parse: Parser): (r: Result<(Option<Json>, Fields, seq<string>), Exception>)
    ensures JsonCandidate(output).None? ==> r == Ok((None, [], []))
    ensures JsonCandidate(output).Some? && parse(JsonCandidate(output).value).Malformed? ==>
      r == Ok((None, [], ["Failed to parse JSON: " + parse(JsonCandidate(output).value).message]))
    ensures r.Ok? && r.value.0.Some? ==> JsonCandidate(output).Some? && parse(JsonCandidate(output).value) == Parsed(r.value.0.value)
    ensures r.Ok? && r.value.2 == [] && JsonCandidate(output).Some? ==> r.value.0.Some?
  {
    match JsonCandidate(output)
    case None => Ok((None, [], []))
    case Some(text) =>
      match parse(text)
      case Malformed(m) => Ok((None, [], ["Failed to parse JSON: " + m]))
      case Parsed(j) =>
        match SubPromptsOf(j)
        case Err(e) => Err(e)
        case Ok(None) => Ok((Some(j), [], []))
        case Ok(Some(sps)) =>
          match Fold(sps, [], OpaqueStep)
          case Err(e) => Err(e)
          case Ok(merged) => Ok((Some(j), merged, []))
  }

  /** What `parse_output` computes. */
  function ParseOutputSpec(output: string, parse: Parser, find: ToolFinder): Result<ParsedOutput, Exception>
  {
    match JsonPart(output, parse)
    case Err(e) => Err(e)
    case Ok(part) =>
      match ToolsPart(part.0, Hits(find(output)))
      case Err(e) => Err(e)
      case Ok(tools) => Ok(ParsedOutput(part.0, Dedupe(tools), part.1, part.2))
  }

  /** The first half of `parse_output`: the JSON text is decoded, when there is any, and
      its sub-prompts' opaque values merged. */
  method DecodeJson(output: string, parse: Parser) returns (r: Result<(Option<Json>, Fields, seq<string>), Exception>)
    ensures r == JsonPart(output, parse)
  {
    var jsonData: Option<Json> := None;
    var merged: Fields := [];
    var errors: seq<string> := [];
    var start := Find(output, "{");
    var end := RFind(output, "\n}\n") + 3;
    if start != -1 && end != -1 {
      var text := Slice(output, start, end);
      assert JsonCandidate(output) == Some(text);
      var decoded := parse(text);
      if decoded.Malformed? {
        errors := errors + ["Failed to parse JSON: " + decoded.message];
        assert errors == ["Failed to parse JSON: " + decoded.message];
      } else {
        var j := decoded.value;
        jsonData := Some(j);
        var subPrompts := SubPromptsOf(j);
        if subPrompts.Err? {
          return Err(subPrompts.error);
        }
        if subPrompts.value.Some? {
          var collected := MergeOpaque(subPrompts.value.value);
          if collected.Err? {
            return Err(collected.error);
          }
          merged := collected.value;
        }
      }
    }
    return Ok((jsonData, merged, errors));
  }

  /** The loop over the regular-expression hits. */
  method CollectHits(matches: seq<(string, string)>) returns (tools: seq<string>)
    ensures tools == Hits(matches)
  {
    tools := [];
    var i := 0;
    while i < |matches|
      invariant 0 <= i <= |matches| && |tools| == i
      invariant forall k | 0 <= k < i :: tools[k] == HitName(matches[k])
    {
      var (server, tool) := matches[i];
      var fullTool := if server != "" then server + "." + tool else tool;
      tools := tools + [fullTool];
      i := i + 1;
    }
  }

  /** `parse_output`: the JSON part, then every "server: tool was called" hit and every
      suggested tool, each once. */
  method ParseOutput(output: string, parse: Parser, find: ToolFinder) returns (r: Result<ParsedOutput, Exception>)
    ensures r == ParseOutputSpec(output, parse, find)
  {
    var part := DecodeJson(output, parse);
    if part.Err? {
      return Err(part.error);
    }
    var (jsonData, merged, errors) := part.value;
    var tools := CollectHits(find(output));
    if jsonData.Some? && Truthy(jsonData.value) {
      // The test was already made, without raising, while decoding.
      var subPrompts := SubPromptsOf(jsonData.value);
      if subPrompts.Ok? && subPrompts.value.Some? {
        var extended := ExtendSuggested(tools, subPrompts.value.value);
        if extended.Err? {
          return Err(extended.error);
        }
        tools := extended.value;
      }
    }
    tools := Dedupe(tools);
    return Ok(ParsedOutput(jsonData, tools, merged, errors));
  }

  /** The tools `parse_output` reports: each once, every hit among them, and besides the
      hits only the suggested tools. */
  lemma ParseOutputTools(output: string, parse: Parser, find: ToolFinder)
    ensures var r := ParseOutputSpec(output, parse, find);
      r.Ok? ==>
        && Distinct(r.value.toolsCalled)
        && (forall h | h in find(output) :: HitName(h) in r.value.toolsCalled)
        && ToolsPart(r.value.jsonData, []).Ok?
        && (forall t :: t in r.value.toolsCalled <==> t in Hits(find(output)) || t in ToolsPart(r.value.jsonData, []).value)
  {
    var part := JsonPart(output, parse);
    if part.Ok? {
      var hits := Hits(find(output));
      var tools := ToolsPart(part.value.0, hits);
      ToolsPartKeepsHits(part.value.0, hits);
      if tools.Ok? {
        assert ParseOutputSpec(output, parse, find) == Ok(ParsedOutput(part.value.0, Dedupe(tools.value), part.value.1, part.value.2));
        forall h | h in find(output) ensures HitName(h) in hits {
          var i :| 0 <= i < |find(output)| && find(output)[i] == h;
          assert hits[i] == HitName(h);
        }
      }
    }
  }

  /** A sub-prompt the second loop accepts: a dict whose `suggested_tools`, if any, is a
      list of strings. */
  predicate SuggestionsWellFormed(sp: Json)
  {
    sp.Obj? &&
    (HasKey(sp.fields, "suggested_tools") ==>
      Get(sp.fields, "suggested_tools").value.Arr? && AllStrings(Get(sp.fields, "suggested_tools").value.items))
  }

  /** `t` is among the tools a sub-prompt suggests. */
  predicate Suggests(sp: Json, t: string)
  {
    sp.Obj? && HasKey(sp.fields, "suggested_tools") && Get(sp.fields, "suggested_tools").value.Arr?
    && Str(t) in Get(sp.fields, "suggested_tools").value.items
  }

  /** When every sub-prompt is well formed, the second loop collects exactly the tools
      some sub-prompt suggests. */
  lemma {:induction false} SuggestedMeaning(subPrompts: seq<Json>)
    requires forall i | 0 <= i < |subPrompts| :: SuggestionsWellFormed(subPrompts[i])
    ensures Fold(subPrompts, [], SuggestedStep).Ok?
    ensures forall t :: t in Fold(subPrompts, [], SuggestedStep).value <==>
      exists i | 0 <= i < |subPrompts| :: Suggests(subPrompts[i], t)
  {
    if subPrompts != [] {
      var n := |subPrompts|;
      var front, sp := subPrompts[..n - 1], subPrompts[n - 1];
      assert subPrompts == front + [sp];
      SuggestedMeaning(front);
      FoldSnoc(front, sp, [], SuggestedStep);
      var a := Fold(front, [], SuggestedStep).value;
      var r := Fold(subPrompts, [], SuggestedStep);
      if HasKey(sp.fields, "suggested_tools") {
        var items := Get(sp.fields, "suggested_tools").value.items;
        assert r == Ok(a + Texts(items));
        forall t ensures t in Texts(items) <==> Suggests(sp, t) {
          if Str(t) in items {
            var k :| 0 <= k < |items| && items[k] == Str(t);
            assert Texts(items)[k] == t;
          }
        }
      } else {
        assert r == Ok(a);
      }
      forall t ensures t in r.value <==> exists i | 0 <= i < n :: Suggests(subPrompts[i], t) {
        if exists i | 0 <= i < n :: Suggests(subPrompts[i], t) {
          var i :| 0 <= i < n && Suggests(subPrompts[i], t);
          if i < n - 1 {
            assert Suggests(front[i], t);
          }
        }
        if exists i | 0 <= i < n - 1 :: Suggests(front[i], t) {
          var i :| 0 <= i < n - 1 && Suggests(front[i], t);
          assert subPrompts[i] == front[i];
        }
      }
    }
  }

  // ---------------------------------------------------------------------------------
  // validate_sensitive_data_protection

  /** `any(x in v for v in values)`: the values are tried in order and the first one that
      holds `x` ends the search; one that cannot hold a string raises. */
  function AnyHolds(x: string, values: seq<Json>): (r: Result<bool, Exception>)
    ensures AllStrings(values) ==> r == Ok(exists i | 0 <= i < |values| :: Contains(values[i].s, x))
  {
    if values == [] then Ok(false)
    else match Mcp.InRequired(values[0], x)
      case Err(e) => Err(e)
      case Ok(found) =>
        if found then Ok(true)
        else
          var rest := AnyHolds(x, values[1..]);
          assert AllStrings(values) ==> AllStrings(values[1..]);
          assert AllStrings(values) && !found ==>
            ((exists i | 0 <= i < |values| :: Contains(values[i].s, x)) <==>
             (exists i | 0 <= i < |values| - 1 :: Contains(values[1..][i].s, x))) by {
            if AllStrings(values) && !found {
              forall i | 0 < i < |values| ensures values[i] == values[1..][i - 1] { }
            }
          }
          rest
  }

  function SensitiveWarning(data: string, kind: string): string
  {
    "Sensitive data '" + data + "' (" + kind + ") not found in opaque values"
  }

  /** One item's turn of the loop. `data` is read first; `type` is read only for the
      warning, so an item without it raises only when a warning is due. */
  function CheckItem(values: seq<Json>, warnings: seq<string>, item: SensitiveItem): Result<seq<string>, Exception>
  {
    if "data" !in item then Err(KeyError("data"))
    else if item["data"] == "<any>" then Ok(warnings)
    else match AnyHolds(item["data"], values)
      case Err(e) => Err(e)
      case Ok(found) =>
        if found then Ok(warnings)
        else if "type" !in item then Err(KeyError("type"))
        else Ok(warnings + [SensitiveWarning(item["data"], item["type"])])
  }

  function SensitiveStep(values: seq<Json>): (seq<string>, SensitiveItem) -> Result<seq<string>, Exception>
  {
    (warnings, item) => CheckItem(values, warnings, item)
  }

  /** What `validate_sensitive_data_protection` returns: the flag is set to true before
      the loop and set to true again for every unprotected item, so it is always true. */
  function SensitiveSpec(items: seq<SensitiveItem>, opaqueValues: Fields): (r: Result<(bool, seq<string>), Exception>)
    ensures r.Ok? ==> r.value.0
  {
    match Fold(items, [], SensitiveStep(Values(opaqueValues)))
    case Err(e) => Err(e)
    case Ok(warnings) => Ok((true, warnings))
  }

  method ValidateSensitiveDataProtection(testCase: TestCase, parsed: ParsedOutput) returns (r: Result<(bool, seq<string>), Exception>)
    ensures r == SensitiveSpec(testCase.sensitivePersonalData, parsed.opaqueValues)
    ensures r.Ok? ==> r.value.0
  {
    var items := testCase.sensitivePersonalData;
    var values := Values(parsed.opaqueValues);
    var warnings: seq<string> := [];
    var protected := true;
    var i := 0;
    while i < |items|
      invariant 0 <= i <= |items| && protected
      invariant Fold(items[..i], [], SensitiveStep(values)) == Ok(warnings)
    {
      var item := items[i];
      FoldSnoc(items[..i], item, [], SensitiveStep(values));
      assert items[..i + 1] == items[..i] + [item];
      if "data" !in item {
        FoldRaised(items, i + 1, [], SensitiveStep(values));
        return Err(KeyError("data"));
      }
      var sensitiveValue := item["data"];
      if sensitiveValue != "<any>" {
        var found := AnyHolds(sensitiveValue, values);
        if found.Err? {
          FoldRaised(items, i + 1, [], SensitiveStep(values));
          return Err(found.error);
        }
        if !found.value {
          protected := true;
          if "type" !in item {
            FoldRaised(items, i + 1, [], SensitiveStep(values));
            return Err(KeyError("type"));
          }
          warnings := warnings + [SensitiveWarning(sensitiveValue, item["type"])];
        }
      }
      i := i + 1;
    }
    assert items[..i] == items;
    return Ok((protected, warnings));
  }

  /** An item the check complains about: real data that no opaque value contains. */
  predicate Exposed(item: SensitiveItem, values: seq<Json>)
    requires "data" in item
  {
    item["data"] != "<any>" && !exists i | 0 <= i < |values| :: values[i].Str? && Contains(values[i].s, item["data"])
  }

  predicate WellFormedItems(items: seq<SensitiveItem>)
  {
    forall i | 0 <= i < |items| :: "data" in items[i] && "type" in items[i]
  }

  /** The exposed items, in order. */
  function ExposedItems(items: seq<SensitiveItem>, values: seq<Json>): (r: seq<SensitiveItem>)
    requires WellFormedItems(items)
    ensures WellFormedItems(r)
  {
    if items == [] then []
    else
      var rest := ExposedItems(items[..|items| - 1], values);
      if Exposed(items[|items| - 1], values) then rest + [items[|items| - 1]] else rest
  }

  function Warnings(exposed: seq<SensitiveItem>): (r: seq<string>)
    requires WellFormedItems(exposed)
    ensures |r| == |exposed|
  {
    seq(|exposed|, j requires 0 <= j < |exposed| => SensitiveWarning(exposed[j]["data"], exposed[j]["type"]))
  }

  /** With well-formed items and string opaque values, the check never raises and gives
      one warning per exposed item, in order; "<any>" items are never reported. */
  lemma {:induction false} SensitiveWarningsExact(items: seq<SensitiveItem>, opaqueValues: Fields)
    requires WellFormedItems(items) && AllStrings(Values(opaqueValues))
    ensures SensitiveSpec(items, opaqueValues) == Ok((true, Warnings(ExposedItems(items, Values(opaqueValues)))))
  {
    var values := Values(opaqueValues);
    SensitiveWarningsFold(items, values);
  }

  lemma {:induction false} SensitiveWarningsFold(items: seq<SensitiveItem>, values: seq<Json>)
    requires WellFormedItems(items) && AllStrings(values)
    ensures Fold(items, [], SensitiveStep(values)) == Ok(Warnings(ExposedItems(items, values)))
  {
    if items != [] {
      var n := |items|;
      var front, item := items[..n - 1], items[n - 1];
      assert items == front + [item];
      SensitiveWarningsFold(front, values);
      FoldSnoc(front, item, [], SensitiveStep(values));
      var w := Warnings(ExposedItems(front, values));
      if Exposed(item, values) {
        var e := ExposedItems(front, values) + [item];
        assert Warnings(e) == w + [SensitiveWarning(item["data"], item["type"])];
      }
    }
  }

  // ---------------------------------------------------------------------------------
  // validate_tool_usage

  /** `set(t.lower() for t in tools)`. */
  function LowerSet(tools: seq<string>): set<string>
  {
    set i | 0 <= i < |tools| :: Lower(tools[i])
  }

  /** The lower-cased expected tools that are not in `detected`, in order. */
  function MissingList(expected: seq<string>, detected: set<string>): (r: seq<string>)
    ensures forall t :: t in r <==> t in LowerSet(expected) && t !in detected
  {
    if expected == [] then []
    else
      var n := |expected|;
      var rest := MissingList(expected[..n - 1], detected);
      assert forall t :: t in LowerSet(expected) <==> t in LowerSet(expected[..n - 1]) || t == Lower(expected[n - 1]) by {
        forall t | t in LowerSet(expected) ensures t in LowerSet(expected[..n - 1]) || t == Lower(expected[n - 1]) {
          var i :| 0 <= i < n && Lower(expected[i]) == t;
          if i < n - 1 {
            assert expected[..n - 1][i] == expected[i];
          }
        }
        forall t | t in LowerSet(expected[..n - 1]) ensures t in LowerSet(expected) {
          var i :| 0 <= i < n - 1 && Lower(expected[..n - 1][i]) == t;
          assert expected[i] == expected[..n - 1][i];
        }
      }
      if Lower(expected[n - 1]) in detected then rest else rest + [Lower(expected[n - 1])]
  }

  /** `expected_set - detected_set`, each tool once. Python joins a set, whose order it
      leaves open; the model lists the tools in the order they are expected. */
  function MissingTools(expected: seq<string>, detected: seq<string>): (r: seq<string>)
    ensures Distinct(r)
    ensures forall t :: t in r <==> t in LowerSet(expected) - LowerSet(detected)
  {
    Dedupe(MissingList(expected, LowerSet(detected)))
  }

  /** `validate_tool_usage`: it passes exactly when every expected tool, lower-cased, is
      among the detected ones, lower-cased; otherwise it gives one warning naming all
      the missing tools. */
  function ValidateToolUsage(expected: seq<string>, detected: seq<string>): (r: (bool, seq<string>))
    ensures r.0 <==> LowerSet(expected) <= LowerSet(detected)
    ensures r.0 ==> r.1 == []
    ensures !r.0 ==> r.1 == ["Missing expected tools: " + Join(", ", MissingTools(expected, detected))]
  {
    var missing := MissingTools(expected, detected);
    if missing != [] then
      assert missing[0] in missing;
      (false, ["Missing expected tools: " + Join(", ", missing)])
    else
      assert forall t | t in LowerSet(expected) :: t in LowerSet(detected) by {
        forall t | t in LowerSet(expected) ensures t in LowerSet(detected) {
          assert t !in missing;
        }
      }
      (true, [])
  }

  /** Detecting more tools never turns a pass into a failure. */
  lemma ExtraToolsIgnored(expected: seq<string>, detected: seq<string>, extra: seq<string>)
    ensures ValidateToolUsage(expected, detected).0 ==> ValidateToolUsage(expected, detected + extra).0
  {
    forall t | t in LowerSet(detected) ensures t in LowerSet(detected + extra) {
      var i :| 0 <= i < |detected| && Lower(detected[i]) == t;
      assert (detected + extra)[i] == detected[i];
    }
  }

  function LowerAll(tools: seq<string>): (r: seq<string>)
    ensures |r| == |tools| && forall i | 0 <= i < |r| :: r[i] == Lower(tools[i])
  {
    seq(|tools|, i requires 0 <= i < |tools| => Lower(tools[i]))
  }

  lemma LowerTwice(s: string)
    ensures Lower(Lower(s)) == Lower(s)
  {
  }

  /** The comparison ignores case on both sides. */
  lemma {:induction false} ToolUsageIgnoresCase(expected: seq<string>, detected: seq<string>)
    ensures ValidateToolUsage(LowerAll(expected), LowerAll(detected)) == ValidateToolUsage(expected, detected)
  {
    LowerSetOfLowered(detected);
    LowerSetOfLowered(expected);
    MissingListOfLowered(expected, LowerSet(detected));
  }

  lemma LowerSetOfLowered(tools: seq<string>)
    ensures LowerSet(LowerAll(tools)) == LowerSet(tools)
  {
    forall i | 0 <= i < |tools| ensures Lower(LowerAll(tools)[i]) == Lower(tools[i]) {
      LowerTwice(tools[i]);
    }
  }

  lemma {:induction false} MissingListOfLowered(expected: seq<string>, detected: set<string>)
    ensures MissingList(LowerAll(expected), detected) == MissingList(expected, detected)
  {
    if expected != [] {
      var n := |expected|;
      assert LowerAll(expected)[..n - 1] == LowerAll(expected[..n - 1]);
      MissingListOfLowered(expected[..n - 1], detected);
      LowerTwice(expected[n - 1]);
    }
  }

  // ---------------------------------------------------------------------------------
  // run_test

  /** The status rule: any error fails the test, else any warning marks it, else it
      passes. */
  function Status(errors: seq<string>, warnings: seq<string>): (s: TestStatus)
    ensures s == Failed <==> errors != []
    ensures s == Warning <==> errors == [] && warnings != []
    ensures s == Passed <==> errors == [] && warnings == []
    ensures s != Skipped
  {
    if errors != [] then Failed
    else if warnings != [] then Warning
    else Passed
  }

  /** The error a failed command contributes: the first line of output that starts with
      "ERROR:". */
  function CommandErrors(rawOutput: string): (r: seq<string>)
    ensures StartsWith(rawOutput, "ERROR:") ==> r == [FirstLine(rawOutput)] && StartsWith(r[0], "ERROR:")
    ensures !StartsWith(rawOutput, "ERROR:") ==> r == []
  {
    if StartsWith(rawOutput, "ERROR:") then
      var line := FirstLine(rawOutput);
      assert StartsWith(line, "ERROR:") by {
        if |line| < 6 {
          assert line != rawOutput;
          assert rawOutput[|line|] == '\n' == rawOutput[..6][|line|];
        } else {
          assert line[..6] == rawOutput[..6];
        }
      }
      [line]
    else []
  }

  /** What `run_test` gives for a test case and the output of its run. */
  function RunTestSpec(testCase: TestCase, rawOutput: string, parse: Parser, find: ToolFinder): Result<TestResult, Exception>
  {
    match ParseOutputSpec(rawOutput, parse, find)
    case Err(e) => Err(e)
    case Ok(parsed) =>
      var errors := CommandErrors(rawOutput) + parsed.errors;
      var tools := ValidateToolUsage(testCase.expectedTools, parsed.toolsCalled);
      match SensitiveSpec(testCase.sensitivePersonalData, parsed.opaqueValues)
      case Err(e) => Err(e)
      case Ok(data) =>
        var warnings := data.1 + tools.1;
        Ok(TestResult(testCase.id, Status(errors, warnings), testCase.userPrompt, testCase.expectedTools,
                      parsed.toolsCalled, data.0, rawOutput, errors, warnings, parsed.opaqueValues))
  }

  /** A test never ends up skipped and its data always counts as protected; a command
      error fails it; it passes only without errors and warnings, and never while an
      expected tool is missing. */
  lemma RunTestOutcome(testCase: TestCase, rawOutput: string, parse: Parser, find: ToolFinder)
    ensures var r := RunTestSpec(testCase, rawOutput, parse, find);
      && (r.Ok? ==> r.value.status != Skipped && r.value.sensitiveDataProtected)
      && (r.Ok? ==> r.value.testId == testCase.id && r.value.prompt == testCase.userPrompt && r.value.rawOutput == rawOutput)
      && (r.Ok? && StartsWith(rawOutput, "ERROR:") ==>
            r.value.status == Failed && |r.value.errors| > 0 && r.value.errors[0] == FirstLine(rawOutput))
      && (r.Ok? ==> (r.value.status == Passed <==> r.value.errors == [] && r.value.warnings == []))
      && (r.Ok? && !(LowerSet(testCase.expectedTools) <= LowerSet(r.value.detectedTools)) ==> r.value.status != Passed)
      && (r.Ok? ==> Distinct(r.value.detectedTools))
  {
    ParseOutputTools(rawOutput, parse, find);
  }

  /** One test run, as a function value. */
  function TestRunner(run: TestCase -> string, parse: Parser, find: ToolFinder): TestCase -> Result<TestResult, Exception>
  {
    c => RunTestSpec(c, run(c), parse, find)
  }

  /** Running the tests in order until one raises: the results so far and the exception. */
  function RunAll(cases: seq<TestCase>, run: TestCase -> string, parse: Parser, find: ToolFinder): (seq<TestResult>, Option<Exception>)
  {
    RunUntilError(cases, TestRunner(run, parse, find))
  }

  /** One more test run after `n` that raised nothing. */
  lemma RunAllStep(cases: seq<TestCase>, n: nat, run: TestCase -> string, parse: Parser, find: ToolFinder)
    requires n < |cases| && RunAll(cases[..n], run, parse, find).1.None?
    ensures var before, t := RunAll(cases[..n], run, parse, find), RunTestSpec(cases[n], run(cases[n]), parse, find);
      && (t.Err? ==> RunAll(cases[..n + 1], run, parse, find) == (before.0, Some(t.error)))
      && (t.Ok? ==> RunAll(cases[..n + 1], run, parse, find) == (before.0 + [t.value], None))
  {
    var f := TestRunner(run, parse, find);
    assert f(cases[n]) == RunTestSpec(cases[n], run(cases[n]), parse, find);
    RunUntilErrorStep(cases, n, f);
  }

  /** Once a test has raised, the later ones are not run. */
  lemma RunAllRaised(cases: seq<TestCase>, n: nat, run: TestCase -> string, parse: Parser, find: ToolFinder)
    requires n <= |cases| && RunAll(cases[..n], run, parse, find).1.Some?
    ensures RunAll(cases, run, parse, find) == RunAll(cases[..n], run, parse, find)
  {
    RunUntilErrorRaised(cases, n, TestRunner(run, parse, find));
  }

  /** With no exception, every test gets one result, in order, and none is skipped. */
  lemma RunAllMeaning(cases: seq<TestCase>, run: TestCase -> string, parse: Parser, find: ToolFinder)
    ensures var r := RunAll(cases, run, parse, find);
      && |r.0| <= |cases|
      && (r.1.None? ==> |r.0| == |cases|)
      && (forall i | 0 <= i < |r.0| :: r.0[i].status != Skipped && r.0[i].testId == cases[i].id)
  {
    var f := TestRunner(run, parse, find);
    RunUntilErrorMeaning(cases, f);
    var r := RunAll(cases, run, parse, find);
    forall i | 0 <= i < |r.0| ensures r.0[i].status != Skipped && r.0[i].testId == cases[i].id {
      assert f(cases[i]) == RunTestSpec(cases[i], run(cases[i]), parse, find) == Ok(r.0[i]);
      RunTestOutcome(cases[i], run(cases[i]), parse, find);
    }
  }

  /** Appending the results of a run keeps every result unskipped. */
  lemma ResultsStayValid(results: seq<TestResult>, cases: seq<TestCase>, run: TestCase -> string, parse: Parser, find: ToolFinder)
    requires NoneSkipped(results)
    ensures NoneSkipped(results + RunAll(cases, run, parse, find).0)
  {
    RunAllMeaning(cases, run, parse, find);
    var added := RunAll(cases, run, parse, find).0;
    forall i | |results| <= i < |results + added| ensures (results + added)[i].status != Skipped {
      assert (results + added)[i] == added[i - |results|];
    }
  }

  /** How many results have a status. */
  function CountStatus(results: seq<TestResult>, s: TestStatus): (n: nat)
    ensures n <= |results|
  {
    if results == [] then 0
    else CountStatus(results[..|results| - 1], s) + (if results[|results| - 1].status == s then 1 else 0)
  }

  predicate NoneSkipped(results: seq<TestResult>)
  {
    forall i | 0 <= i < |results| :: results[i].status != Skipped
  }

  /** The passed, warning and failed counts of the summary and the report add up to the
      number of results, as no test is ever skipped. */
  lemma {:induction false} CountsAddUp(results: seq<TestResult>)
    requires NoneSkipped(results)
    ensures CountStatus(results, Passed) + CountStatus(results, Warning) + CountStatus(results, Failed) == |results|
  {
    if results != [] {
      CountsAddUp(results[..|results| - 1]);
    }
  }

  /** The success rate `print_summary` prints, `(passed + warnings) / total * 100`, as the
      source computes it: unlike the average time beside it, the division has no guard, so
      the summary of a run without results raises `ZeroDivisionError`. */
  function SuccessRate(passed: nat, warnings: nat, total: nat): (r: Result<real, Exception>)
    ensures total == 0 ==> r == Err(ZeroDivisionError("division by zero"))
    ensures total > 0 && passed + warnings <= total ==> r.Ok? && 0.0 <= r.value <= 100.0
  {
    if total == 0 then Err(ZeroDivisionError("division by zero"))
    else Ok((passed + warnings) as real / total as real * 100.0)
  }

  /** The rate with the guard the average time has (`... if total > 0 else 0`): it never
      raises, lies between 0 and 100, and is the source's rate whenever that one exists. */
  function GuardedSuccessRate(passed: nat, warnings: nat, total: nat): (r: real)
    requires passed + warnings <= total
    ensures 0.0 <= r <= 100.0
    ensures total > 0 ==> SuccessRate(passed, warnings, total) == Ok(r)
    ensures total == 0 ==> r == 0.0
  {
    if total > 0 then (passed + warnings) as real / total as real * 100.0 else 0.0
  }

  /** The input that shows the missing guard: a summary of no results raises where the
      guarded rate is 0. */
  lemma EmptySummaryRaises()
    ensures SuccessRate(0, 0, 0) == Err(ZeroDivisionError("division by zero"))
    ensures GuardedSuccessRate(0, 0, 0) == 0.0
  {
  }

  /** One entry of the YAML file of test cases; the defaulted keys may be absent. */
  datatype CaseEntry = CaseEntry(
    id: int, userPrompt: string, expectedTools: seq<string>, sensitivePersonalData: seq<SensitiveItem>,
    provider: Option<string>, model: Option<string>, description: Option<string>)

  /** The test case an entry describes: provider "ollama" and model "llama3.2" unless
      given. */
  function CaseOf(e: CaseEntry): (c: TestCase)
    ensures c.id == e.id && c.userPrompt == e.userPrompt && c.expectedTools == e.expectedTools
    ensures c.sensitivePersonalData == e.sensitivePersonalData && c.description == e.description
    ensures c.provider == (if e.provider.Some? then e.provider.value else "ollama")
    ensures c.model == (if e.model.Some? then e.model.value else "llama3.2")
  {
    TestCase(e.id, e.userPrompt, e.expectedTools, e.sensitivePersonalData,
             if e.provider.Some? then e.provider.value else "ollama",
             if e.model.Some? then e.model.value else "llama3.2",
             e.description)
  }

  /** `ShardGuardTester`: the loaded test cases and the results of running them. */
  class ShardGuardTester {
    var testCases: seq<TestCase>
    var results: seq<TestResult>
    const verbose: bool
    /** The text one run of the CLI prints for a test case. */
    const run: TestCase -> string
    const parse: Parser
    const find: ToolFinder

    /** No result is ever skipped. */
    ghost predicate Valid()
      reads this
    {
      NoneSkipped(results)
    }

    constructor (verbose: bool, run: TestCase -> string, parse: Parser, find: ToolFinder)
      ensures testCases == [] && results == [] && Valid()
      ensures this.verbose == verbose && this.run == run && this.parse == parse && this.find == find
    {
      testCases := [];
      results := [];
      this.verbose := verbose;
      this.run := run;
      this.parse := parse;
      this.find := find;
    }

    /** `load_test_cases`, from entries already read from the YAML file. */
    method LoadTestCases(entries: seq<CaseEntry>)
      modifies this
      ensures testCases == old(testCases) + seq(|entries|, i requires 0 <= i < |entries| => CaseOf(entries[i]))
      ensures results == old(results)
    {
      var i := 0;
      while i < |entries|
        invariant 0 <= i <= |entries| && results == old(results)
        invariant testCases == old(testCases) + seq(i, k requires 0 <= k < i => CaseOf(entries[k]))
      {
        testCases := testCases + [CaseOf(entries[i])];
        i := i + 1;
      }
    }

    /** `run_test`. */
    method RunTest(testCase: TestCase) returns (r: Result<TestResult, Exception>)
      ensures r == RunTestSpec(testCase, run(testCase), parse, find)
    {
      var rawOutput := run(testCase);
      var commandErrors: seq<string> := [];
      if StartsWith(rawOutput, "ERROR:") {
        commandErrors := commandErrors + [FirstLine(rawOutput)];
      }
      assert commandErrors == CommandErrors(rawOutput);
      var parsed := ParseOutput(rawOutput, parse, find);
      if parsed.Err? {
        return Err(parsed.error);
      }
      commandErrors := commandErrors + parsed.value.errors;
      var tools := ValidateToolUsage(testCase.expectedTools, parsed.value.toolsCalled);
      var data := ValidateSensitiveDataProtection(testCase, parsed.value);
      if data.Err? {
        return Err(data.error);
      }
      var allErrors := commandErrors;
      var allWarnings := data.value.1 + tools.1;
      var status;
      if allErrors != [] {
        status := Failed;
      } else if allWarnings != [] {
        status := Warning;
      } else {
        status := Passed;
      }
      assert status == Status(allErrors, allWarnings);
      return Ok(TestResult(testCase.id, status, testCase.userPrompt, testCase.expectedTools, parsed.value.toolsCalled,
                           data.value.0, rawOutput, allErrors, allWarnings, parsed.value.opaqueValues));
    }

    /** `f` gives, for every test case, what `run_test` gives. */
    ghost predicate RunsTests(f: TestCase -> Result<TestResult, Exception>)
    {
      forall c {:trigger RunTestSpec(c, run(c), parse, find)} :: f(c) == RunTestSpec(c, run(c), parse, find)
    }

    /** `run_test`, seen through such an `f`. */
    method RunThrough(testCase: TestCase, ghost f: TestCase -> Result<TestResult, Exception>) returns (r: Result<TestResult, Exception>)
      requires RunsTests(f)
      ensures r == f(testCase)
    {
      r := RunTest(testCase);
    }

    /** The loop of `run_all_tests`, stated for any `f` that gives what `run_test` gives:
        each test case in turn, its result appended, until a run raises. */
    method RunEach(ghost f: TestCase -> Result<TestResult, Exception>) returns (raised: Option<Exception>)
      requires RunsTests(f)
      modifies this
      ensures testCases == old(testCases)
      ensures results == old(results) + RunUntilError(testCases, f).0
      ensures raised == RunUntilError(testCases, f).1
    {
      var i := 0;
      assert testCases[..0] == [];
      while i < |testCases|
        invariant 0 <= i <= |testCases| && testCases == old(testCases)
        invariant RunUntilError(testCases[..i], f).1.None?
        invariant results == old(results) + RunUntilError(testCases[..i], f).0
      {
        var result := RunThrough(testCases[i], f);
        RunUntilErrorStep(testCases, i, f);
        if result.Err? {
          RunUntilErrorRaised(testCases, i + 1, f);
          return Some(result.error);
        }
        results := results + [result.value];
        i := i + 1;
      }
      assert testCases[..i] == testCases;
      return None;
    }

    /** `print_summary`, reduced to what it can raise: the success rate divides by the
        number of results, so it raises exactly when there are none. */
    method PrintSummary() returns (raised: Option<Exception>)
      requires Valid()
      ensures results == [] ==> raised == Some(ZeroDivisionError("division by zero"))
      ensures results != [] ==> raised.None?
    {
      var c := Counts();
      var rate := SuccessRate(c.0, c.1, |results|);
      raised := if rate.Err? then Some(rate.error) else None;
    }

    /** `run_all_tests`: each test case in turn, its result appended; an exception from a
        run ends the loop. Otherwise the summary follows, and it raises `ZeroDivisionError`
        when there are no results at all: no earlier results and no test cases. */
    method RunAllTests() returns (raised: Option<Exception>)
      requires Valid()
      modifies this
      ensures Valid()
      ensures testCases == old(testCases)
      ensures results == old(results) + RunAll(testCases, run, parse, find).0
      ensures RunAll(testCases, run, parse, find).1.Some? ==> raised == RunAll(testCases, run, parse, find).1
      ensures RunAll(testCases, run, parse, find).1.None? ==>
        && (results == [] <==> old(results) == [] && testCases == [])
        && raised == if results == [] then Some(ZeroDivisionError("division by zero")) else None
    {
      ghost var start := results;
      raised := RunEach(TestRunner(run, parse, find));
      ResultsStayValid(start, testCases, run, parse, find);
      RunAllMeaning(testCases, run, parse, find);
      if raised.None? {
        raised := PrintSummary();
      }
    }

    /** The counts `print_summary` and `generate_report` show: passed, warnings, failed. */
    function Counts(): (c: (nat, nat, nat))
      reads this
      requires Valid()
      ensures c.0 + c.1 + c.2 == |results|
    {
      CountsAddUp(results);
      (CountStatus(results, Passed), CountStatus(results, Warning), CountStatus(results, Failed))
    }
  }
}
