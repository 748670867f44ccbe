/** What `GeminiLLM.process_query` (llm/gemini_llm.py) and
    `ChatService.process_message` (services/chat_service.py) share: the
    tool-name index built from every connector's tool list, the single pass over
    the parts of the model's answer, and the final join. */
module Dispatch {
  import opened Base
  import opened JsonValue
  import opened ToolConverter

  /** One connector's entry of the tool map: its name and the tools it lists. */
  datatype ToolGroup = ToolGroup(connector: string, tools: seq<Tool>)

  /** A function call the model proposes. */
  datatype FunctionCall = FunctionCall(name: string, args: seq<Field>)

  /** One part of the model's answer: a (truthy) `function_call`, if any, and its
      `text` (empty when the part has none). */
  datatype Part = Part(call: Option<FunctionCall>, text: string)

  /** The request sent to `generate_content`: the bare query, or the query with
      a tool list. */
  datatype ModelRequest = Plain(query: string) | WithTools(query: string, tools: seq<Json>)

  /** The model's answer: the parts of each candidate, and `response.text`
      (`Failure` when reading it raises). */
  datatype Response = Response(candidates: seq<seq<Part>>, text: Result<string, string>)

  /** A tool execution: the connector that ran it, the tool, and its arguments. */
  datatype Invocation = Invocation(connector: string, tool: string, args: seq<Field>)

  /** What handling one function call produces: a warning and nothing executed;
      an execution plus the follow-up answer's text; or an exception. */
  datatype CallStep = Warn(message: string) | Ran(inv: Invocation, reply: string) | Raise(error: string)

  /** The pass's accumulator: `final_parts`, and the executions made so far. */
  datatype Collected = Collected(texts: seq<string>, invoked: seq<Invocation>)

  const NoResponse: string := "No response generated"

  // ---------------------------------------------------------------------------
  // The tool index
  // ---------------------------------------------------------------------------

  /** The names of a list of tools. */
  function ToolNames(tools: seq<Tool>): set<string> {
    set i | 0 <= i < |tools| :: tools[i].name
  }

  /** `tool_connector_map` / `tool_index`: for every connector in order, each of
      its tools is mapped to the connector's name, overwriting earlier entries. */
  function ToolIndex(groups: seq<ToolGroup>): map<string, string>
    decreases |groups|
  {
    if |groups| == 0 then map[]
    else
      var g := groups[|groups| - 1];
      ToolIndex(groups[..|groups| - 1]) + map n | n in ToolNames(g.tools) :: g.connector
  }

  /** A tool name is indexed exactly when some connector lists it, and it is
      indexed to the last connector that lists it. */
  lemma {:induction false} ToolIndexLastWins(groups: seq<ToolGroup>, n: string)
    ensures n in ToolIndex(groups) <==> exists i :: 0 <= i < |groups| && n in ToolNames(groups[i].tools)
    ensures forall i :: 0 <= i < |groups| && n in ToolNames(groups[i].tools) &&
                        (forall j :: i < j < |groups| ==> n !in ToolNames(groups[j].tools)) ==>
                        n in ToolIndex(groups) && ToolIndex(groups)[n] == groups[i].connector
    decreases |groups|
  {
    if |groups| > 0 {
      var pre := groups[..|groups| - 1];
      ToolIndexLastWins(pre, n);
      assert forall i :: 0 <= i < |pre| ==> pre[i] == groups[i];
    }
  }

  /** The tool is indexed to a truthy connector name (`if not connector_name`
      rejects a missing entry and an empty name alike). */
  predicate Routed(index: map<string, string>, name: string) {
    name in index && index[name] != ""
  }

  /** Every tool of every connector, in order. */
  function AllTools(groups: seq<ToolGroup>): seq<Tool> {
    if |groups| == 0 then [] else groups[0].tools + AllTools(groups[1..])
  }

  // ---------------------------------------------------------------------------
  // The pass over the parts
  // ---------------------------------------------------------------------------

  /** One part: a function call is handled by `onCall`; otherwise a non-empty
      text is appended as it is. */
  function ApplyPart(acc: Collected, p: Part, onCall: FunctionCall -> CallStep): Result<Collected, string> {
    if p.call.Some? then
      match onCall(p.call.value)
      case Warn(m) => Success(Collected(acc.texts + [m], acc.invoked))
      case Ran(inv, reply) =>
        Success(Collected(acc.texts + (if reply != "" then [reply] else []), acc.invoked + [inv]))
      case Raise(e) => Failure(e)
    else if p.text != "" then Success(Collected(acc.texts + [p.text], acc.invoked))
    else Success(acc)
  }

  /** `for part in parts`, in order, stopping at the first exception. */
  function FoldParts(acc: Collected, parts: seq<Part>, onCall: FunctionCall -> CallStep): Result<Collected, string>
    decreases |parts|
  {
    if |parts| == 0 then Success(acc)
    else
      match ApplyPart(acc, parts[0], onCall)
      case Failure(e) => Failure(e)
      case Success(acc') => FoldParts(acc', parts[1..], onCall)
  }

  /** `"\n".join(final_parts) if final_parts else "No response generated"`. */
  function Render(c: Collected): string {
    if |c.texts| == 0 then NoResponse else Join("\n", c.texts)
  }

  /** Folding a concatenation is folding the first part, then the second from
      where the first left off. */
  lemma {:induction false} FoldAppend(acc: Collected, p1: seq<Part>, p2: seq<Part>, onCall: FunctionCall -> CallStep)
    ensures FoldParts(acc, p1 + p2, onCall) ==
      match FoldParts(acc, p1, onCall)
      case Failure(e) => Failure(e)
      case Success(mid) => FoldParts(mid, p2, onCall)
    decreases |p1|
  {
    if |p1| == 0 {
      assert p1 + p2 == p2;
    } else {
      assert (p1 + p2)[0] == p1[0];
      assert (p1 + p2)[1..] == p1[1..] + p2;
      match ApplyPart(acc, p1[0], onCall)
      case Failure(e) =>
      case Success(acc') => FoldAppend(acc', p1[1..], p2, onCall);
    }
  }

  /** The pass only appends: what was collected before stays first, in order,
      and each part adds at most one text and at most one execution. */
  lemma {:induction false} FoldExtends(acc: Collected, parts: seq<Part>, onCall: FunctionCall -> CallStep)
    ensures FoldParts(acc, parts, onCall).Success? ==>
      var out := FoldParts(acc, parts, onCall).value;
      && acc.texts <= out.texts && acc.invoked <= out.invoked
      && |out.texts| <= |acc.texts| + |parts|
      && |out.invoked| <= |acc.invoked| + |parts|
    decreases |parts|
  {
    if |parts| > 0 {
      match ApplyPart(acc, parts[0], onCall)
      case Failure(e) =>
      case Success(acc') => FoldExtends(acc', parts[1..], onCall);
    }
  }

  /** The texts of the text parts that are non-empty, in order. */
  function NonEmptyTexts(parts: seq<Part>): seq<string> {
    if |parts| == 0 then []
    else (if parts[0].text != "" then [parts[0].text] else []) + NonEmptyTexts(parts[1..])
  }

  /** Without function calls, the pass executes nothing and collects every
      non-empty text verbatim, in order. */
  lemma {:induction false} FoldTextOnly(acc: Collected, parts: seq<Part>, onCall: FunctionCall -> CallStep)
    requires forall i :: 0 <= i < |parts| ==> parts[i].call.None?
    ensures FoldParts(acc, parts, onCall) == Success(Collected(acc.texts + NonEmptyTexts(parts), acc.invoked))
    decreases |parts|
  {
    if |parts| > 0 {
      var first := if parts[0].text != "" then [parts[0].text] else [];
      var acc' := Collected(acc.texts + first, acc.invoked);
      if parts[0].text == "" {
        assert acc.texts + first == acc.texts;
      }
      assert ApplyPart(acc, parts[0], onCall) == Success(acc');
      FoldTextOnly(acc', parts[1..], onCall);
      assert NonEmptyTexts(parts) == first + NonEmptyTexts(parts[1..]);
      assert acc'.texts + NonEmptyTexts(parts[1..]) == acc.texts + NonEmptyTexts(parts);
    } else {
      assert acc.texts + NonEmptyTexts(parts) == acc.texts;
    }
  }

  /** Every execution the pass makes was produced by handling one of the
      function calls among the parts: if every execution `onCall` can produce
      satisfies `ok`, every execution the pass records does. */
  lemma {:induction false} FoldInvocationsSound(acc: Collected, parts: seq<Part>, onCall: FunctionCall -> CallStep,
                                                 ok: Invocation -> bool)
    requires forall i :: 0 <= i < |acc.invoked| ==> ok(acc.invoked[i])
    requires forall fc :: onCall(fc).Ran? ==> ok(onCall(fc).inv)
    ensures FoldParts(acc, parts, onCall).Success? ==>
      forall i :: 0 <= i < |FoldParts(acc, parts, onCall).value.invoked| ==>
        ok(FoldParts(acc, parts, onCall).value.invoked[i])
    decreases |parts|
  {
    if |parts| > 0 {
      match ApplyPart(acc, parts[0], onCall)
      case Failure(e) =>
      case Success(acc') =>
        assert forall i :: 0 <= i < |acc'.invoked| ==> ok(acc'.invoked[i]);
        assert FoldParts(acc, parts, onCall) == FoldParts(acc', parts[1..], onCall);
        FoldInvocationsSound(acc', parts[1..], onCall, ok);
    }
  }

  /** A single function call whose handling warns adds exactly that warning and
      executes nothing; one that runs adds its execution and, when non-empty, the
      follow-up's text, and nothing else when that text is empty; one that raises
      ends the pass with that exception. */
  lemma FoldSingleCall(acc: Collected, fc: FunctionCall, text: string, onCall: FunctionCall -> CallStep)
    ensures onCall(fc).Warn? ==>
      FoldParts(acc, [Part(Some(fc), text)], onCall) == Success(Collected(acc.texts + [onCall(fc).message], acc.invoked))
    ensures onCall(fc).Ran? && onCall(fc).reply != "" ==>
      FoldParts(acc, [Part(Some(fc), text)], onCall) ==
        Success(Collected(acc.texts + [onCall(fc).reply], acc.invoked + [onCall(fc).inv]))
    ensures onCall(fc).Ran? && onCall(fc).reply == "" ==>
      FoldParts(acc, [Part(Some(fc), text)], onCall) == Success(Collected(acc.texts, acc.invoked + [onCall(fc).inv]))
    ensures onCall(fc).Raise? ==> FoldParts(acc, [Part(Some(fc), text)], onCall) == Failure(onCall(fc).error)
  {
    assert [Part(Some(fc), text)][1..] == [];
    assert acc.texts + [] == acc.texts;
  }

  /** Every collected text is non-empty, provided every warning `onCall` can give
      is: a text part is kept only when non-empty, and so is a follow-up reply. */
  lemma {:induction false} FoldTextsNonEmpty(acc: Collected, parts: seq<Part>, onCall: FunctionCall -> CallStep)
    requires forall i :: 0 <= i < |acc.texts| ==> acc.texts[i] != ""
    requires forall fc :: onCall(fc).Warn? ==> onCall(fc).message != ""
    ensures FoldParts(acc, parts, onCall).Success? ==>
      forall i :: 0 <= i < |FoldParts(acc, parts, onCall).value.texts| ==> FoldParts(acc, parts, onCall).value.texts[i] != ""
    decreases |parts|
  {
    if |parts| > 0 {
      match ApplyPart(acc, parts[0], onCall)
      case Failure(e) =>
      case Success(acc') =>
        assert forall i :: 0 <= i < |acc'.texts| ==> acc'.texts[i] != "";
        FoldTextsNonEmpty(acc', parts[1..], onCall);
    }
  }

  /** The rendered answer is the sentinel exactly when nothing was collected,
      or the collected text was the sentinel itself; one collected text is
      returned as it is. Otherwise it starts with the first collected text, and
      it is never empty when no collected text is. */
  lemma RenderSpec(c: Collected)
    ensures Render(c) == NoResponse <==> (|c.texts| == 0 || Join("\n", c.texts) == NoResponse)
    ensures |c.texts| == 1 ==> Render(c) == c.texts[0]
    ensures |c.texts| > 0 ==> c.texts[0] <= Render(c)
    ensures (forall i :: 0 <= i < |c.texts| ==> c.texts[i] != "") ==> Render(c) != ""
  {
    if |c.texts| > 1 {
      assert Render(c) == c.texts[0] + ("\n" + Join("\n", c.texts[1..]));
    }
  }
}
