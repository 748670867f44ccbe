/** `GeminiLLM.process_query` of llm/gemini_llm.py: build the catalog and the
    tool-to-connector map from every connector's tools, ask the model once, and
    fold the parts of its answer into one text.

    The model, the connectors' `execute` and the follow-up model call are
    parameters: `generate`, `execute` and `followUp`. Each returns `Failure(msg)`
    when it raises, `msg` standing for `str(e)`. Tool results are values of an
    arbitrary type `O`. */
module GeminiQuery {
  import opened Base
  import opened JsonValue
  import opened ToolConverter
  import opened GeminiCatalog
  import opened Registry
  import opened Dispatch

  /** The catalog: each connector's tools converted in turn and concatenated.
      A conversion error propagates (it happens before the `try`). Converting
      connector by connector is converting every tool at once. */
  function Catalog(groups: seq<ToolGroup>): (r: Result<seq<Json>, string>)
    ensures r == ConvertTools(AllTools(groups))
    ensures r.Failure? <==> exists i :: 0 <= i < |AllTools(groups)| && PropertiesNotDict(AllTools(groups)[i])
    ensures r.Success? ==> |r.value| == |AllTools(groups)|
    ensures r.Success? ==> forall i :: 0 <= i < |AllTools(groups)| ==>
      DeclaredName(r.value[i]) == Some(AllTools(groups)[i].name)
    decreases |groups|
  {
    if |groups| == 0 then Success([])
    else
      ConvertToolsAppend(groups[0].tools, AllTools(groups[1..]));
      match ConvertTools(groups[0].tools)
      case Failure(e) => Failure(e)
      case Success(ds) =>
        match Catalog(groups[1..])
        case Failure(e) => Failure(e)
        case Success(rest) => Success(ds + rest)
  }

  function UnknownToolWarning(name: string): string {
    "⚠️ No se encontró conector para la función " + name
  }

  function MissingConnectorWarning(connector: string): string {
    "⚠️ No se encontró instancia del conector " + connector
  }

  /** The handling of one `function_call` part. */
  function OnCall<H, O>(query: string, index: map<string, string>, connectors: seq<Connector<H>>,
                        execute: (Connector<H>, string, seq<Field>) -> Result<O, string>,
                        followUp: (string, FunctionCall, O) -> Result<string, string>,
                        fc: FunctionCall): CallStep
  {
    if !Routed(index, fc.name) then Warn(UnknownToolWarning(fc.name))
    else
      var cname := index[fc.name];
      match Find(connectors, cname)
      case None => Warn(MissingConnectorWarning(cname))
      case Some(c) =>
        match execute(c, fc.name, fc.args)
        case Failure(e) => Raise(e)
        case Success(res) =>
          match followUp(query, fc, res)
          case Failure(e) => Raise(e)
          case Success(text) => Ran(Invocation(cname, fc.name, fc.args), text)
  }

  /** What one call is routed to: a call to an unindexed tool (or one indexed to
      an empty name) warns and runs nothing; a call whose connector instance is
      missing warns and runs nothing; any execution goes to the connector the
      index names, on the called tool with the call's arguments. */
  lemma OnCallSpec<H, O>(query: string, index: map<string, string>, connectors: seq<Connector<H>>,
                         execute: (Connector<H>, string, seq<Field>) -> Result<O, string>,
                         followUp: (string, FunctionCall, O) -> Result<string, string>,
                         fc: FunctionCall)
    ensures var step := OnCall(query, index, connectors, execute, followUp, fc);
      && (!Routed(index, fc.name) ==> step == Warn(UnknownToolWarning(fc.name)))
      && (Routed(index, fc.name) && index[fc.name] !in Names(connectors) ==>
            step == Warn(MissingConnectorWarning(index[fc.name])))
      && (step.Ran? ==> Routed(index, fc.name) && step.inv == Invocation(index[fc.name], fc.name, fc.args)
                         && index[fc.name] in Names(connectors))
  {
  }

  /** The answer text when the response carries no parts. */
  function TextOnlyAnswer(text: Result<string, string>): string {
    match text
    case Failure(e) => "Error: " + e
    case Success(t) => if t != "" then t else NoResponse
  }

  /** The handler the pass applies to each function call. */
  function Handler<H, O>(query: string, index: map<string, string>, connectors: seq<Connector<H>>,
                         execute: (Connector<H>, string, seq<Field>) -> Result<O, string>,
                         followUp: (string, FunctionCall, O) -> Result<string, string>): FunctionCall -> CallStep
  {
    (fc: FunctionCall) => OnCall(query, index, connectors, execute, followUp, fc)
  }

  /** `process_query(query)`: `Failure` only for the conversion error raised
      before the `try`; every later exception becomes an `"Error: ..."` answer. */
  function ProcessQuery<H, O>(query: string, groups: seq<ToolGroup>, connectors: seq<Connector<H>>,
                              generate: ModelRequest -> Result<Response, string>,
                              execute: (Connector<H>, string, seq<Field>) -> Result<O, string>,
                              followUp: (string, FunctionCall, O) -> Result<string, string>): Result<string, string>
  {
    match Catalog(groups)
    case Failure(e) => Failure(e)
    case Success(catalog) =>
      var index := ToolIndex(groups);
      var request := if |catalog| > 0 then WithTools(query, catalog) else Plain(query);
      match generate(request)
      case Failure(e) => Success("Error: " + e)
      case Success(response) =>
        if |response.candidates| > 0 && |response.candidates[0]| > 0 then
          match FoldParts(Collected([], []), response.candidates[0], Handler(query, index, connectors, execute, followUp))
          case Failure(e) => Success("Error: " + e)
          case Success(collected) => Success(Render(collected))
        else Success(TextOnlyAnswer(response.text))
  }

  /** What `process_query` answers in each case: the conversion error; the
      model's exception as `"Error: ..."`; for a response with parts, the
      exception of the pass as `"Error: ..."` or the rendered collected texts;
      for a response without parts, its text. The tools are sent exactly when
      some connector lists one. */
  lemma ProcessQueryAnswer<H, O>(query: string, groups: seq<ToolGroup>, connectors: seq<Connector<H>>,
                                 generate: ModelRequest -> Result<Response, string>,
                                 execute: (Connector<H>, string, seq<Field>) -> Result<O, string>,
                                 followUp: (string, FunctionCall, O) -> Result<string, string>)
    ensures Catalog(groups).Failure? ==>
      ProcessQuery(query, groups, connectors, generate, execute, followUp) == Failure(Catalog(groups).error)
    ensures Catalog(groups).Success? ==>
      var r := ProcessQuery(query, groups, connectors, generate, execute, followUp);
      var request := if |AllTools(groups)| > 0 then WithTools(query, Catalog(groups).value) else Plain(query);
      var answer := generate(request);
      && (answer.Failure? ==> r == Success("Error: " + answer.error))
      && (answer.Success? && (|answer.value.candidates| == 0 || |answer.value.candidates[0]| == 0) ==>
            r == Success(TextOnlyAnswer(answer.value.text)))
      && (answer.Success? && |answer.value.candidates| > 0 && |answer.value.candidates[0]| > 0 ==>
            var pass := FoldParts(Collected([], []), answer.value.candidates[0],
                                  Handler(query, ToolIndex(groups), connectors, execute, followUp));
            && (pass.Failure? ==> r == Success("Error: " + pass.error))
            && (pass.Success? ==> r == Success(Render(pass.value))))
  {
  }

  /** Whenever `process_query` answers, the answer is a non-empty text: every
      warning, error text and sentinel is non-empty, and the pass keeps only
      non-empty texts. */
  lemma ProcessQueryNeverEmpty<H, O>(query: string, groups: seq<ToolGroup>, connectors: seq<Connector<H>>,
                                     generate: ModelRequest -> Result<Response, string>,
                                     execute: (Connector<H>, string, seq<Field>) -> Result<O, string>,
                                     followUp: (string, FunctionCall, O) -> Result<string, string>)
    ensures var r := ProcessQuery(query, groups, connectors, generate, execute, followUp);
      r.Success? ==> r.value != ""
  {
    var r := ProcessQuery(query, groups, connectors, generate, execute, followUp);
    if Catalog(groups).Success? {
      var onCall := Handler(query, ToolIndex(groups), connectors, execute, followUp);
      forall fc | onCall(fc).Warn?
        ensures onCall(fc).message != ""
      {
      }
      var catalog := Catalog(groups).value;
      var request := if |catalog| > 0 then WithTools(query, catalog) else Plain(query);
      match generate(request)
      case Failure(e) =>
      case Success(response) =>
        if |response.candidates| > 0 && |response.candidates[0]| > 0 {
          FoldTextsNonEmpty(Collected([], []), response.candidates[0], onCall);
          match FoldParts(Collected([], []), response.candidates[0], onCall)
          case Failure(e) =>
          case Success(c) => RenderSpec(c);
        }
    }
  }

  /** Once the catalog is built, `process_query` never raises: any exception of
      the model, a connector or the follow-up call becomes an `"Error: ..."`
      answer. A response without parts answers with its text, or the sentinel. */
  lemma ProcessQueryNeverRaises<H, O>(query: string, groups: seq<ToolGroup>, connectors: seq<Connector<H>>,
                                      generate: ModelRequest -> Result<Response, string>,
                                      execute: (Connector<H>, string, seq<Field>) -> Result<O, string>,
                                      followUp: (string, FunctionCall, O) -> Result<string, string>)
    requires forall t :: t in AllTools(groups) ==> !PropertiesNotDict(t)
    ensures var r := ProcessQuery(query, groups, connectors, generate, execute, followUp);
      && r.Success?
      && (generate(if |AllTools(groups)| > 0 then WithTools(query, Catalog(groups).value) else Plain(query)).Failure? ==>
            r.value == "Error: " + generate(if |AllTools(groups)| > 0 then WithTools(query, Catalog(groups).value)
                                             else Plain(query)).error)
  {
    assert forall i :: 0 <= i < |AllTools(groups)| ==> AllTools(groups)[i] in AllTools(groups);
  }

  /** A response without parts answers with its text when non-empty, with the
      sentinel when the text is empty, and with `"Error: ..."` when reading the
      text raises. */
  lemma NoPartsAnswer(text: Result<string, string>)
    ensures text.Success? && text.value != "" ==> TextOnlyAnswer(text) == text.value
    ensures text.Success? && text.value == "" ==> TextOnlyAnswer(text) == NoResponse
    ensures text.Failure? ==> TextOnlyAnswer(text) == "Error: " + text.error
  {
  }

  /** Every tool execution the pass makes goes to the connector the index names
      for the called tool, and to a connector that exists. */
  lemma DispatchSound<H, O>(query: string, index: map<string, string>, connectors: seq<Connector<H>>,
                            execute: (Connector<H>, string, seq<Field>) -> Result<O, string>,
                            followUp: (string, FunctionCall, O) -> Result<string, string>,
                            parts: seq<Part>)
    ensures var onCall := (fc: FunctionCall) => OnCall(query, index, connectors, execute, followUp, fc);
      var r := FoldParts(Collected([], []), parts, onCall);
      r.Success? ==> forall i :: 0 <= i < |r.value.invoked| ==>
        var inv := r.value.invoked[i];
        Routed(index, inv.tool) && inv.connector == index[inv.tool] && inv.connector in Names(connectors)
  {
    var onCall := (fc: FunctionCall) => OnCall(query, index, connectors, execute, followUp, fc);
    var ok := (inv: Invocation) => Routed(index, inv.tool) && inv.connector == index[inv.tool]
                                   && inv.connector in Names(connectors);
    forall fc | onCall(fc).Ran?
      ensures ok(onCall(fc).inv)
    {
      OnCallSpec(query, index, connectors, execute, followUp, fc);
    }
    FoldInvocationsSound(Collected([], []), parts, onCall, ok);
  }

  /** Two connectors declaring the same tool: both declarations reach the
      catalog, but the call is executed by the connector iterated last. */
  lemma DuplicateToolGoesToLast<H, O>(query: string, t1: Tool, t2: Tool, a: string, b: string,
                                      connectors: seq<Connector<H>>,
                                      execute: (Connector<H>, string, seq<Field>) -> Result<O, string>,
                                      followUp: (string, FunctionCall, O) -> Result<string, string>,
                                      args: seq<Field>)
    requires t1.name == t2.name && b != ""
    requires !PropertiesNotDict(t1) && !PropertiesNotDict(t2)
    ensures var groups := [ToolGroup(a, [t1]), ToolGroup(b, [t2])];
      && Catalog(groups).Success? && |Catalog(groups).value| == 2
      && DeclaredName(Catalog(groups).value[0]) == Some(t1.name)
      && DeclaredName(Catalog(groups).value[1]) == Some(t1.name)
      && ToolIndex(groups)[t1.name] == b
      && (OnCall(query, ToolIndex(groups), connectors, execute, followUp, FunctionCall(t1.name, args)).Ran? ==>
            OnCall(query, ToolIndex(groups), connectors, execute, followUp, FunctionCall(t1.name, args)).inv.connector == b)
  {
    DuplicateCatalog(t1, t2, a, b);
    DuplicateIndex(t1, t2, a, b);
    OnCallSpec(query, ToolIndex([ToolGroup(a, [t1]), ToolGroup(b, [t2])]), connectors, execute, followUp,
               FunctionCall(t1.name, args));
  }

  lemma DuplicateCatalog(t1: Tool, t2: Tool, a: string, b: string)
    requires !PropertiesNotDict(t1) && !PropertiesNotDict(t2)
    ensures var groups := [ToolGroup(a, [t1]), ToolGroup(b, [t2])];
      && Catalog(groups).Success? && |Catalog(groups).value| == 2
      && DeclaredName(Catalog(groups).value[0]) == Some(t1.name)
      && DeclaredName(Catalog(groups).value[1]) == Some(t2.name)
  {
    var groups := [ToolGroup(a, [t1]), ToolGroup(b, [t2])];
    assert groups[1..] == [ToolGroup(b, [t2])];
    assert AllTools([ToolGroup(b, [t2])]) == [t2] + AllTools([]);
    assert AllTools(groups) == [t1] + AllTools(groups[1..]);
    assert AllTools(groups) == [t1, t2];
  }

  lemma DuplicateIndex(t1: Tool, t2: Tool, a: string, b: string)
    requires t1.name == t2.name
    ensures var groups := [ToolGroup(a, [t1]), ToolGroup(b, [t2])];
      t1.name in ToolIndex(groups) && ToolIndex(groups)[t1.name] == b
  {
    var groups := [ToolGroup(a, [t1]), ToolGroup(b, [t2])];
    assert t1.name in ToolNames(groups[1].tools) by {
      assert groups[1].tools[0] == t2;
    }
    ToolIndexLastWins(groups, t1.name);
  }

  /** A model that answers with a single call to a known tool, whose connector
      exists and whose execution and follow-up succeed with a non-empty text,
      yields exactly that follow-up text, after one execution on that connector. */
  lemma OneCallThenText<H, O>(query: string, index: map<string, string>, connectors: seq<Connector<H>>,
                              execute: (Connector<H>, string, seq<Field>) -> Result<O, string>,
                              followUp: (string, FunctionCall, O) -> Result<string, string>,
                              fc: FunctionCall)
    requires Routed(index, fc.name) && index[fc.name] in Names(connectors)
    requires execute(Find(connectors, index[fc.name]).value, fc.name, fc.args).Success?
    requires var res := execute(Find(connectors, index[fc.name]).value, fc.name, fc.args).value;
             followUp(query, fc, res).Success? && followUp(query, fc, res).value != ""
    ensures var onCall := (f: FunctionCall) => OnCall(query, index, connectors, execute, followUp, f);
      var r := FoldParts(Collected([], []), [Part(Some(fc), "")], onCall);
      var res := execute(Find(connectors, index[fc.name]).value, fc.name, fc.args).value;
      && r.Success?
      && Render(r.value) == followUp(query, fc, res).value
      && r.value.invoked == [Invocation(index[fc.name], fc.name, fc.args)]
  {
    var onCall := (f: FunctionCall) => OnCall(query, index, connectors, execute, followUp, f);
    FoldSingleCall(Collected([], []), fc, "", onCall);
  }

  /** A model that answers with text only: each non-empty text part, in order,
      and no tool runs; a single part `"hello"` answers `"hello"`. */
  lemma TextOnlyAnswerSpec<H, O>(query: string, index: map<string, string>, connectors: seq<Connector<H>>,
                                 execute: (Connector<H>, string, seq<Field>) -> Result<O, string>,
                                 followUp: (string, FunctionCall, O) -> Result<string, string>,
                                 parts: seq<Part>)
    requires forall i :: 0 <= i < |parts| ==> parts[i].call.None?
    ensures var onCall := (f: FunctionCall) => OnCall(query, index, connectors, execute, followUp, f);
      && FoldParts(Collected([], []), parts, onCall) == Success(Collected(NonEmptyTexts(parts), []))
      && (parts == [Part(None, "hello")] ==> Render(FoldParts(Collected([], []), parts, onCall).value) == "hello")
  {
    var onCall := (f: FunctionCall) => OnCall(query, index, connectors, execute, followUp, f);
    FoldTextOnly(Collected([], []), parts, onCall);
    assert [] + NonEmptyTexts(parts) == NonEmptyTexts(parts);
  }
}
