/** The synchronous planner the coordination service is given: a thin wrapper around the
    MCP-integrated planning LLM whose JSON extractor replaces an unusable response with a
    one-step fallback plan. */
module Planning {
  import opened Common
  import opened Json
  import opened Models
  import opened Schemas
  import Mcp = McpIntegration

  const FailedPrefix := "Failed to parse JSON from response: "

  /** The fallback for a response that yields no JSON; the content quotes at most the
      first 100 characters of the response. */
  function ParseFailure(response: string): (r: Json)
    ensures r == Mcp.FallbackPlan(response, FailedPrefix + Slice(response, 0, 100) + "...")
    ensures |Slice(response, 0, 100)| == if |response| < 100 then |response| else 100
  {
    Mcp.FallbackPlan(response, FailedPrefix + Slice(response, 0, 100) + "...")
  }

  /** `PlanningLLM`: the wrapped implementation, always an Ollama one. */
  class PlanningLlm {
    const impl: Mcp.McpPlanningLlm
    const model: string
    const baseUrl: string

    constructor (model: string, baseUrl: string, executable: string, serversDir: string, transport: Mcp.Transport,
                 show: Json -> string, provider: string -> Result<string, Exception>, parse: Parser, dumps: Serializer)
      ensures this.model == model && this.baseUrl == baseUrl
      ensures fresh(impl) && impl.providerType == "ollama" && impl.model == model && impl.baseUrl == baseUrl && impl.apiKey == None
      ensures impl.providerKwargs == [("base_url", Some(baseUrl))]
      ensures impl.mcpClient.serverConfigs == Mcp.ServerConfigs(executable, serversDir)
      ensures impl.provider == provider && impl.parse == parse && impl.dumps == dumps
    {
      impl := new Mcp.McpPlanningLlm("ollama", model, baseUrl, None, executable, serversDir, transport, show, provider, parse, dumps);
      this.model := model;
      this.baseUrl := baseUrl;
      assert Lower("ollama") == "ollama";
    }

    /** `generate_plan`: exactly what the implementation's synchronous `generate_plan_sync`
        returns. */
    method GeneratePlan(prompt: string, loopRunning: bool) returns (r: Result<string, Exception>)
      ensures loopRunning ==>
        r == Ok(Mcp.PlanReply(prompt, impl.provider(Mcp.EnhancedPrompt(prompt, Mcp.MockDescription, true)), impl.parse, impl.dumps))
      ensures !loopRunning && impl.ToolsDescription().Err? ==> r == Err(impl.ToolsDescription().error)
      ensures !loopRunning && impl.ToolsDescription().Ok? ==>
        r == Ok(Mcp.PlanReply(prompt, impl.provider(Mcp.EnhancedPrompt(prompt, impl.ToolsDescription().value, true)), impl.parse, impl.dumps))
    {
      r := impl.GeneratePlanSync(prompt, loopRunning);
    }

    /** `get_available_tools_description`. */
    method AvailableToolsDescription(loopRunning: bool) returns (r: Result<string, Exception>)
      ensures loopRunning ==> r == Ok(Mcp.MockDescription)
      ensures !loopRunning ==> r == impl.ToolsDescription()
    {
      r := impl.ToolsDescriptionSync(loopRunning);
    }

    /** `_extract_json_from_response`: the implementation's extraction, unless it gives the
        response back unchanged, in which case the fallback plan is dumped instead. */
    function ExtractJsonFromResponse(response: string): (r: string)
      ensures Mcp.ExtractJsonFromResponse(response, impl.parse) == response ==> r == impl.dumps(ParseFailure(response))
      ensures Mcp.ExtractJsonFromResponse(response, impl.parse) != response ==>
        r == Mcp.ExtractJsonFromResponse(response, impl.parse) && impl.parse(r).Parsed?
    {
      var result := Mcp.ExtractJsonFromResponse(response, impl.parse);
      if result == response then impl.dumps(ParseFailure(response)) else result
    }
  }

  /** A response that is exactly one JSON object, with nothing around it, is given back
      unchanged by the implementation and so is replaced by the fallback all the same. */
  lemma ExactObjectFallsBack(p: PlanningLlm, response: string)
    requires |response| >= 2 && response[0] == '{' && response[|response| - 1] == '}'
    requires p.impl.parse(response).Parsed?
    ensures p.ExtractJsonFromResponse(response) == p.impl.dumps(ParseFailure(response))
  {
    Mcp.ExtractWholeObject(response, p.impl.parse);
  }

  /** Text around the JSON object is dropped: the object alone comes back. */
  lemma SurroundedObjectExtracted(p: PlanningLlm, before: string, obj: string, after: string)
    requires '{' !in before && '}' !in after
    requires |obj| >= 2 && obj[0] == '{' && obj[|obj| - 1] == '}'
    requires p.impl.parse(obj).Parsed? && (before != "" || after != "")
    ensures p.ExtractJsonFromResponse(before + obj + after) == obj
  {
    var response := before + obj + after;
    BraceSpanOf(before, obj, after);
    assert |response| > |obj|;
  }

  lemma BraceSpanOf(before: string, obj: string, after: string)
    requires '{' !in before && '}' !in after
    requires |obj| >= 2 && obj[0] == '{' && obj[|obj| - 1] == '}'
    ensures Mcp.BraceSpan(before + obj + after) == Some(obj)
  {
    var response := before + obj + after;
    var s := |before|;
    var e := |before| + |obj| - 1;
    OccursAtChar(response, '{', s);
    OccursAtChar(response, '}', e);
    forall i | 0 <= i < s ensures !OccursAt(response, "{", i) {
      OccursAtChar(response, '{', i);
      assert response[i] == before[i];
    }
    forall i | e < i <= |response| ensures !OccursAt(response, "}", i) {
      OccursAtChar(response, '}', i);
      if i < |response| {
        assert response[i] == after[i - (|before| + |obj|)];
      }
    }
    FindIs(response, "{", s);
    RFindIs(response, "}", e);
    assert response[s..e + 1] == obj;
  }

  /** Whatever the response, the fallback is a one-step plan quoting it, and it passes the
      planning schema unless the response is empty. */
  lemma ParseFailureMeaning(response: string)
    ensures PlanFromJson(ParseFailure(response)) ==
      Some(Plan(response, [SubPrompt(1, FailedPrefix + Slice(response, 0, 100) + "...", [])]))
    ensures PlanningOutput(ParseFailure(response)) <==> response != ""
  {
    var content := FailedPrefix + Slice(response, 0, 100) + "...";
    Mcp.FallbackPlanParses(response, content);
    Mcp.FallbackPlanValid(response, content);
  }
}
