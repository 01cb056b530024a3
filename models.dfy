/** The planner's data model: a `Plan` is the original prompt and its list of sub-prompts.

    `SubPromptFromJson` and `PlanFromJson` are what pydantic's `model_validate_json` makes
    of an already parsed JSON value: the required fields must be present with the declared
    types, `opaque_values` defaults to the empty mapping, and undeclared keys (such as
    `suggested_tools`) are dropped. A `ValidationError` is `None`. `SubPromptToJson` is
    `model_dump`. */
module Models {
  import opened Common
  import opened Json

  datatype SubPrompt = SubPrompt(id: int, content: string, opaqueValues: seq<(string, string)>)

  datatype Plan = Plan(originalPrompt: string, subPrompts: seq<SubPrompt>)

  /** pydantic's lax `int`: an integer, a float without fractional part, or a boolean. */
  function IntOf(j: Json): (r: Option<int>)
    ensures j.Int? ==> r == Some(j.i)
    ensures r.Some? ==> j.Int? || j.Bool? || (j.Float? && j.r == r.value as real)
  {
    match j
    case Int(i) => Some(i)
    case Bool(b) => Some(if b then 1 else 0)
    case Float(x) => if x.Floor as real == x then Some(x.Floor) else None
    case _ => None
  }

  /** `dict[str, str]`: an object whose every value is a string. */
  function StringMapOf(j: Json): (r: Option<seq<(string, string)>>)
    ensures r.Some? <==> j.Obj? && forall i | 0 <= i < |j.fields| :: j.fields[i].1.Str?
    ensures r.Some? ==> (|r.value| == |j.fields|
      && forall i | 0 <= i < |j.fields| :: j.fields[i] == (r.value[i].0, Str(r.value[i].1)))
  {
    if j.Obj? && forall i | 0 <= i < |j.fields| :: j.fields[i].1.Str? then
      Some(seq(|j.fields|, i requires 0 <= i < |j.fields| => (j.fields[i].0, j.fields[i].1.s)))
    else None
  }

  function StringMapToJson(m: seq<(string, string)>): (r: Json)
    ensures r.Obj? && |r.fields| == |m|
    ensures forall i | 0 <= i < |m| :: r.fields[i] == (m[i].0, Str(m[i].1))
  {
    Obj(seq(|m|, i requires 0 <= i < |m| => (m[i].0, Str(m[i].1))))
  }

  function SubPromptFromJson(j: Json): (r: Option<SubPrompt>)
  {
    if !j.Obj? then None
    else
      var id := match Get(j.fields, "id") case Some(v) => IntOf(v) case None => None;
      var content := Get(j.fields, "content");
      var ov := match Get(j.fields, "opaque_values") case Some(v) => StringMapOf(v) case None => Some([]);
      if id.Some? && content.Some? && content.value.Str? && ov.Some? then
        Some(SubPrompt(id.value, content.value.s, ov.value))
      else None
  }

  /** `SubPrompt.model_dump()`. */
  function SubPromptToJson(sp: SubPrompt): (r: Json)
    ensures r.Obj? && Get(r.fields, "id") == Some(Int(sp.id)) && Get(r.fields, "content") == Some(Str(sp.content))
    ensures Get(r.fields, "opaque_values") == Some(StringMapToJson(sp.opaqueValues))
  {
    var fs := [("id", Int(sp.id)), ("content", Str(sp.content)), ("opaque_values", StringMapToJson(sp.opaqueValues))];
    assert fs[..2] == [("id", Int(sp.id)), ("content", Str(sp.content))];
    assert Get(fs, "id") == Get(fs[..2], "id");
    assert Get(fs, "content") == Get(fs[..2], "content");
    Obj(fs)
  }

  function SubPromptsFromJson(items: seq<Json>): (r: Option<seq<SubPrompt>>)
    ensures r.Some? <==> forall i | 0 <= i < |items| :: SubPromptFromJson(items[i]).Some?
    ensures r.Some? ==> (|r.value| == |items|
      && forall i | 0 <= i < |items| :: SubPromptFromJson(items[i]) == Some(r.value[i]))
  {
    if items == [] then Some([])
    else
      match (SubPromptFromJson(items[0]), SubPromptsFromJson(items[1..]))
      case (Some(sp), Some(rest)) =>
        assert forall i | 1 <= i < |items| :: items[i] == items[1..][i - 1];
        Some([sp] + rest)
      case (None, _) => None
      case (_, None) =>
        assert forall i | 0 <= i < |items| - 1 :: items[1..][i] == items[i + 1];
        None
  }

  function PlanFromJson(j: Json): (r: Option<Plan>)
  {
    if !j.Obj? then None
    else
      var op := Get(j.fields, "original_prompt");
      var sps := Get(j.fields, "sub_prompts");
      if op.Some? && op.value.Str? && sps.Some? && sps.value.Arr? then
        match SubPromptsFromJson(sps.value.items)
        case Some(ps) => Some(Plan(op.value.s, ps))
        case None => None
      else None
  }

  /** `Plan.model_dump()`. */
  function PlanToJson(p: Plan): (r: Json)
    ensures r.Obj? && Get(r.fields, "original_prompt") == Some(Str(p.originalPrompt))
    ensures Get(r.fields, "sub_prompts").Some? && Get(r.fields, "sub_prompts").value.Arr?
    ensures var items := Get(r.fields, "sub_prompts").value.items;
      |items| == |p.subPrompts| && forall i | 0 <= i < |items| :: items[i] == SubPromptToJson(p.subPrompts[i])
  {
    Obj([("original_prompt", Str(p.originalPrompt)),
         ("sub_prompts", Arr(seq(|p.subPrompts|, i requires 0 <= i < |p.subPrompts| => SubPromptToJson(p.subPrompts[i]))))])
  }

  // ---------------------------------------------------------------------------

  /** Dumping a sub-prompt and validating the dump gives the sub-prompt back. */
  lemma SubPromptRoundTrip(sp: SubPrompt)
    ensures SubPromptFromJson(SubPromptToJson(sp)) == Some(sp)
  {
    var m := StringMapOf(StringMapToJson(sp.opaqueValues));
    assert m.Some?;
    assert m.value == sp.opaqueValues;
  }

  lemma PlanRoundTrip(p: Plan)
    ensures PlanFromJson(PlanToJson(p)) == Some(p)
  {
    var items := Get(PlanToJson(p).fields, "sub_prompts").value.items;
    forall i | 0 <= i < |items| ensures SubPromptFromJson(items[i]) == Some(p.subPrompts[i]) {
      SubPromptRoundTrip(p.subPrompts[i]);
    }
    assert SubPromptsFromJson(items).value == p.subPrompts;
  }

  /** `id` and `content` are required: leaving either out is a validation error. */
  lemma SubPromptRequiresIdAndContent(j: Json)
    requires j.Obj? && (!HasKey(j.fields, "id") || !HasKey(j.fields, "content"))
    ensures SubPromptFromJson(j).None?
  {
  }

  /** A sub-prompt given without `opaque_values` gets the empty mapping. */
  lemma OpaqueValuesDefault(id: int, content: string)
    ensures SubPromptFromJson(Obj([("id", Int(id)), ("content", Str(content))])) == Some(SubPrompt(id, content, []))
  {
    var fs := [("id", Int(id)), ("content", Str(content))];
    GetAt(fs, 0);
    GetAt(fs, 1);
    GetFound(fs, "opaque_values");
  }

  /** A key the model does not declare, `suggested_tools` among them, changes nothing. */
  lemma UndeclaredKeyIgnored(fields: Fields, k: string, v: Json)
    requires k != "id" && k != "content" && k != "opaque_values"
    ensures SubPromptFromJson(Obj(Put(fields, k, v))) == SubPromptFromJson(Obj(fields))
  {
  }

  /** A plan requires both `original_prompt` and `sub_prompts`, but the list may be empty. */
  lemma PlanRequiredFields(j: Json, prompt: string)
    ensures j.Obj? && (!HasKey(j.fields, "original_prompt") || !HasKey(j.fields, "sub_prompts")) ==> PlanFromJson(j).None?
    ensures PlanFromJson(Obj([("original_prompt", Str(prompt)), ("sub_prompts", Arr([]))])) == Some(Plan(prompt, []))
  {
    var fs := [("original_prompt", Str(prompt)), ("sub_prompts", Arr([]))];
    assert Get(fs, "sub_prompts") == Some(Arr([]));
    assert Get(fs, "original_prompt") == Some(Str(prompt));
  }
}
