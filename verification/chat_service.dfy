/** `ChatService.process_message` of services/chat_service.py: the catalog built
    one tool at a time with `mcp_to_gemini`, the tool index, one model call and
    the single pass over the parts of its first candidate.

    The model (`generate`), the manager's `execute` and the follow-up model call
    (`followUp`) are parameters; each returns `Failure(msg)` when it raises.
    Nothing in `process_message` catches, so every such failure propagates. */
module ChatService {
  import opened Base
  import opened JsonValue
  import opened ToolConverter
  import opened ResultText
  import opened Dispatch

  /** `gemini_tools.extend(mcp_to_gemini([t]))` for each tool of one connector. */
  function ToolByTool(tools: seq<Tool>): seq<Json>
    decreases |tools|
  {
    if |tools| == 0 then [] else McpToGemini([tools[0]]) + ToolByTool(tools[1..])
  }

  /** The catalog: every connector's tools, converted one at a time. */
  function Catalog(groups: seq<ToolGroup>): seq<Json>
    decreases |groups|
  {
    if |groups| == 0 then [] else ToolByTool(groups[0].tools) + Catalog(groups[1..])
  }

  lemma {:induction false} ToolByToolIsBatch(tools: seq<Tool>)
    ensures ToolByTool(tools) == McpToGemini(tools)
    decreases |tools|
  {
    if |tools| > 0 {
      ToolByToolIsBatch(tools[1..]);
      McpToGeminiAppend([tools[0]], tools[1..]);
      assert [tools[0]] + tools[1..] == tools;
    } else {
      assert McpToGemini(tools) == [];
    }
  }

  /** Converting tool by tool gives the same catalog as converting every tool at
      once: one declaration per tool, in order, naming that tool, a tool listed
      by two connectors appearing twice. */
  lemma {:induction false} CatalogIsBatch(groups: seq<ToolGroup>)
    ensures Catalog(groups) == McpToGemini(AllTools(groups))
    ensures |Catalog(groups)| == |AllTools(groups)|
    ensures forall i :: 0 <= i < |AllTools(groups)| ==>
      DeclaredName(Catalog(groups)[i]) == Some(AllTools(groups)[i].name)
    decreases |groups|
  {
    if |groups| > 0 {
      CatalogIsBatch(groups[1..]);
      ToolByToolIsBatch(groups[0].tools);
      McpToGeminiAppend(groups[0].tools, AllTools(groups[1..]));
    } else {
      assert McpToGemini([]) == [];
    }
  }

  function UnknownToolWarning(name: string): string {
    "⚠️ Tool " + name + " no encontrado"
  }

  /** The handling of one `function_call` part: an unindexed tool warns; an
      indexed one is executed by the manager on the indexed connector's name, its
      result turned into text and sent back in the follow-up call. */
  function OnCall<O>(query: string, index: map<string, string>,
                     execute: (string, string, seq<Field>) -> Result<ToolResult<O>, string>,
                     show: O -> string,
                     followUp: (string, FunctionCall, string) -> Result<string, string>,
                     fc: FunctionCall): CallStep
  {
    if !Routed(index, fc.name) then Warn(UnknownToolWarning(fc.name))
    else
      var cname := index[fc.name];
      match execute(cname, fc.name, fc.args)
      case Failure(e) => Raise(e)
      case Success(res) =>
        match followUp(query, fc, ChatToolText(res, show))
        case Failure(e) => Raise(e)
        case Success(text) => Ran(Invocation(cname, fc.name, fc.args), text)
  }

  /** An unindexed tool gets the warning and runs nothing; every execution goes
      to the connector the index names, with the call's tool and arguments. */
  lemma OnCallSpec<O>(query: string, index: map<string, string>,
                      execute: (string, string, seq<Field>) -> Result<ToolResult<O>, string>,
                      show: O -> string,
                      followUp: (string, FunctionCall, string) -> Result<string, string>,
                      fc: FunctionCall)
    ensures var step := OnCall(query, index, execute, show, followUp, fc);
      && (!Routed(index, fc.name) <==> step == Warn(UnknownToolWarning(fc.name)))
      && (step.Ran? ==> Routed(index, fc.name) && step.inv == Invocation(index[fc.name], fc.name, fc.args))
  {
  }

  /** The handler the pass applies to each function call. */
  function Handler<O>(query: string, index: map<string, string>,
                      execute: (string, string, seq<Field>) -> Result<ToolResult<O>, string>,
                      show: O -> string,
                      followUp: (string, FunctionCall, string) -> Result<string, string>): FunctionCall -> CallStep
  {
    (fc: FunctionCall) => OnCall(query, index, execute, show, followUp, fc)
  }

  /** `process_message(query)`. */
  function ProcessMessage<O>(query: string, groups: seq<ToolGroup>,
                             generate: ModelRequest -> Result<Response, string>,
                             execute: (string, string, seq<Field>) -> Result<ToolResult<O>, string>,
                             show: O -> string,
                             followUp: (string, FunctionCall, string) -> Result<string, string>): Result<string, string>
  {
    var index := ToolIndex(groups);
    match generate(WithTools(query, Catalog(groups)))
    case Failure(e) => Failure(e)
    case Success(response) =>
      if |response.candidates| == 0 then Success(NoResponse)
      else
        match FoldParts(Collected([], []), response.candidates[0], Handler(query, index, execute, show, followUp))
        case Failure(e) => Failure(e)
        case Success(collected) => Success(Render(collected))
  }

  /** The model is always asked with the full catalog; a response without
      candidates, or whose first candidate has no parts, answers the sentinel;
      an exception of the model call or of the pass propagates; otherwise the
      answer is the rendered collected texts. */
  lemma ProcessMessageEdges<O>(query: string, groups: seq<ToolGroup>,
                               generate: ModelRequest -> Result<Response, string>,
                               execute: (string, string, seq<Field>) -> Result<ToolResult<O>, string>,
                               show: O -> string,
                               followUp: (string, FunctionCall, string) -> Result<string, string>)
    ensures var r := ProcessMessage(query, groups, generate, execute, show, followUp);
      var answer := generate(WithTools(query, McpToGemini(AllTools(groups))));
      && (answer.Failure? ==> r == Failure(answer.error))
      && (answer.Success? && |answer.value.candidates| == 0 ==> r == Success(NoResponse))
      && (answer.Success? && |answer.value.candidates| > 0 && |answer.value.candidates[0]| == 0 ==>
            r == Success(NoResponse))
      && (answer.Success? && |answer.value.candidates| > 0 ==>
            var pass := FoldParts(Collected([], []), answer.value.candidates[0],
                                  Handler(query, ToolIndex(groups), execute, show, followUp));
            && (pass.Failure? ==> r == Failure(pass.error))
            && (pass.Success? ==> r == Success(Render(pass.value))))
  {
    CatalogIsBatch(groups);
  }

  /** Whenever `process_message` answers, the answer is a non-empty text. */
  lemma ProcessMessageNeverEmpty<O>(query: string, groups: seq<ToolGroup>,
                                    generate: ModelRequest -> Result<Response, string>,
                                    execute: (string, string, seq<Field>) -> Result<ToolResult<O>, string>,
                                    show: O -> string,
                                    followUp: (string, FunctionCall, string) -> Result<string, string>)
    ensures var r := ProcessMessage(query, groups, generate, execute, show, followUp);
      r.Success? ==> r.value != ""
  {
    var onCall := Handler(query, ToolIndex(groups), execute, show, followUp);
    forall fc | onCall(fc).Warn?
      ensures onCall(fc).message != ""
    {
    }
    match generate(WithTools(query, Catalog(groups)))
    case Failure(e) =>
    case Success(response) =>
      if |response.candidates| > 0 {
        FoldTextsNonEmpty(Collected([], []), response.candidates[0], onCall);
        match FoldParts(Collected([], []), response.candidates[0], onCall)
        case Failure(e) =>
        case Success(c) => RenderSpec(c);
      }
  }

  /** Every execution of the pass goes to the connector the index names for the
      called tool: the connector that lists the tool last. */
  lemma DispatchSound<O>(query: string, groups: seq<ToolGroup>,
                         execute: (string, string, seq<Field>) -> Result<ToolResult<O>, string>,
                         show: O -> string,
                         followUp: (string, FunctionCall, string) -> Result<string, string>,
                         parts: seq<Part>)
    ensures var index := ToolIndex(groups);
      var onCall := (fc: FunctionCall) => OnCall(query, index, execute, show, followUp, fc);
      var r := FoldParts(Collected([], []), parts, onCall);
      r.Success? ==> forall i :: 0 <= i < |r.value.invoked| ==>
        Routed(index, r.value.invoked[i].tool) && r.value.invoked[i].connector == index[r.value.invoked[i].tool]
  {
    var index := ToolIndex(groups);
    var onCall := (fc: FunctionCall) => OnCall(query, index, execute, show, followUp, fc);
    var ok := (inv: Invocation) => Routed(index, inv.tool) && inv.connector == index[inv.tool];
    forall fc | onCall(fc).Ran?
      ensures ok(onCall(fc).inv)
    {
      OnCallSpec(query, index, execute, show, followUp, fc);
    }
    FoldInvocationsSound(Collected([], []), parts, onCall, ok);
  }

  /** A call to a tool nobody lists answers exactly the warning, and nothing is
      executed. */
  lemma UnknownToolAnswer<O>(query: string, index: map<string, string>,
                             execute: (string, string, seq<Field>) -> Result<ToolResult<O>, string>,
                             show: O -> string,
                             followUp: (string, FunctionCall, string) -> Result<string, string>,
                             fc: FunctionCall)
    requires fc.name !in index
    ensures var onCall := (f: FunctionCall) => OnCall(query, index, execute, show, followUp, f);
      var r := FoldParts(Collected([], []), [Part(Some(fc), "")], onCall);
      && r == Success(Collected([UnknownToolWarning(fc.name)], []))
      && Render(r.value) == "⚠️ Tool " + fc.name + " no encontrado"
  {
    var onCall := (f: FunctionCall) => OnCall(query, index, execute, show, followUp, f);
    FoldSingleCall(Collected([], []), fc, "", onCall);
    assert [] + [UnknownToolWarning(fc.name)] == [UnknownToolWarning(fc.name)];
  }

  /** A single call to a known tool whose result is a list of text items: the
      follow-up receives those texts joined by newlines, and its non-empty
      answer is the whole reply. An exception of `execute` propagates. */
  lemma ListResultCall<O>(query: string, index: map<string, string>,
                          execute: (string, string, seq<Field>) -> Result<ToolResult<O>, string>,
                          show: O -> string,
                          followUp: (string, FunctionCall, string) -> Result<string, string>,
                          fc: FunctionCall, xs: seq<Item<O>>, obj: O)
    requires Routed(index, fc.name)
    requires execute(index[fc.name], fc.name, fc.args) == Success(ToolResult(NoContent, ListOf(xs), obj))
    requires forall i :: 0 <= i < |xs| ==> xs[i].text.Some?
    ensures var texts := Join("\n", seq(|xs|, i requires 0 <= i < |xs| => xs[i].text.value));
      var onCall := (f: FunctionCall) => OnCall(query, index, execute, show, followUp, f);
      var r := FoldParts(Collected([], []), [Part(Some(fc), "")], onCall);
      && (followUp(query, fc, texts).Failure? ==> r == Failure(followUp(query, fc, texts).error))
      && (followUp(query, fc, texts).Success? && followUp(query, fc, texts).value != "" ==>
            r.Success? && Render(r.value) == followUp(query, fc, texts).value
            && r.value.invoked == [Invocation(index[fc.name], fc.name, fc.args)])
  {
    ChatToolTextSpec(xs, obj, show);
    var onCall := (f: FunctionCall) => OnCall(query, index, execute, show, followUp, f);
    FoldSingleCall(Collected([], []), fc, "", onCall);
  }
}
