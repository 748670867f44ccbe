/** Turning a tool's result into the text handed back to the model:
    `MCPBaseConnector._stringify_tool_result` and `process_query` of
    connectors/mcp_base_connector.py, and the list-to-text step of
    `ChatService.process_message` in services/chat_service.py.

    Tool results are arbitrary Python objects. Type parameter `O` stands for
    them, and `show: O -> string` for Python's `str()`, whose output is not
    modelled. */
module ResultText {
  import opened Base
  import opened JsonValue
  import opened ToolConverter

  /** One Python object as these functions inspect it: its `text` attribute
      when it has one, its `data` attribute when it has one, and the object
      itself for `str()`. */
  datatype Item<O> = Item(text: Option<string>, data: Option<O>, obj: O)

  /** What `getattr(result, "content", None)` yields. */
  datatype Content<O> =
    | NoContent                    // the attribute is missing or `None`
    | Content(items: seq<Item<O>>) // a list of content parts (falsy when empty)
    | ContentRaises                // reading or iterating it raised an exception

  /** Whether the result is itself a list or a tuple. */
  datatype Shape<O> = ListOf(elements: seq<Item<O>>) | TupleOf(elements: seq<Item<O>>) | Scalar

  /** A tool result: its `content` attribute, its shape, and the object itself. */
  datatype ToolResult<O> = ToolResult(content: Content<O>, shape: Shape<O>, obj: O)

  const NoContentMessage: string := "Tool executed successfully but returned no content"

  /** The segment one content part contributes: its text when non-empty, else
      `str(data)` when it has `data`, else `str(part)`. */
  function Segment<O>(c: Item<O>, show: O -> string): string {
    if c.text.Some? && c.text.value != "" then c.text.value
    else if c.data.Some? then show(c.data.value)
    else show(c.obj)
  }

  /** The `out` list built by the loop over `content`. */
  function Segments<O>(cs: seq<Item<O>>, show: O -> string): (out: seq<string>)
    ensures |out| == |cs|
    ensures forall i :: 0 <= i < |cs| ==> out[i] == Segment(cs[i], show)
  {
    if |cs| == 0 then [] else [Segment(cs[0], show)] + Segments(cs[1..], show)
  }

  /** `str(x)` of every element of a list or tuple. */
  function ShowAll<O>(xs: seq<Item<O>>, show: O -> string): (out: seq<string>)
    ensures |out| == |xs|
    ensures forall i :: 0 <= i < |xs| ==> out[i] == show(xs[i].obj)
  {
    if |xs| == 0 then [] else [show(xs[0].obj)] + ShowAll(xs[1..], show)
  }

  /** The fallback after the `content` branch: a list or tuple is joined
      element by element, anything else is `str(result)`. */
  function PlainText<O>(r: ToolResult<O>, show: O -> string): string {
    match r.shape
    case ListOf(xs) => Join("\n", ShowAll(xs, show))
    case TupleOf(xs) => Join("\n", ShowAll(xs, show))
    case Scalar => show(r.obj)
  }

  /** `_stringify_tool_result(result)`. */
  function Stringify<O>(r: ToolResult<O>, show: O -> string): string {
    match r.content
    case Content(cs) =>
      if |cs| > 0 then
        var out := Segments(cs, show);
        if |out| > 0 then Join("\n", out) else NoContentMessage
      else PlainText(r, show)
    case _ => PlainText(r, show)
  }

  /** With non-empty `content`, every part contributes exactly one segment, in
      order, and the segments are joined by newlines: the "no content" message
      is never produced on this path. */
  lemma StringifyContent<O>(r: ToolResult<O>, show: O -> string)
    requires r.content.Content? && |r.content.items| > 0
    ensures var out := Segments(r.content.items, show);
      && |out| == |r.content.items|
      && Stringify(r, show) == Join("\n", out)
      && (forall i :: 0 <= i < |out| ==>
            && (r.content.items[i].text.Some? && r.content.items[i].text.value != "" ==>
                  out[i] == r.content.items[i].text.value)
            && ((!(r.content.items[i].text.Some? && r.content.items[i].text.value != "")
                 && r.content.items[i].data.Some?) ==> out[i] == show(r.content.items[i].data.value)))
  {
  }

  /** An exception while reading `content` is swallowed, and a missing or empty
      `content` falls through the same way: the result is then the plain text of
      the result object. */
  lemma StringifyWithoutContent<O>(content: Content<O>, shape: Shape<O>, obj: O, show: O -> string)
    requires content.NoContent? || content.ContentRaises? || content == Content([])
    ensures Stringify(ToolResult(content, shape, obj), show) == PlainText(ToolResult(NoContent, shape, obj), show)
    ensures shape.Scalar? ==> Stringify(ToolResult(content, shape, obj), show) == show(obj)
  {
  }

  /** A list or tuple result with no content is the newline-join of `str` of its
      elements; one more element adds one more line at the end. */
  lemma {:induction false} PlainTextSnoc<O>(xs: seq<Item<O>>, x: Item<O>, obj: O, show: O -> string)
    requires |xs| > 0
    ensures PlainText(ToolResult(NoContent, ListOf(xs + [x]), obj), show) ==
            PlainText(ToolResult(NoContent, ListOf(xs), obj), show) + "\n" + show(x.obj)
  {
    var a := ShowAll(xs + [x], show);
    assert a == ShowAll(xs, show) + [show(x.obj)];
    JoinSnoc("\n", ShowAll(xs, show), show(x.obj));
  }

  /** `getattr(item, "text", str(item))` in `ChatService.process_message`: the
      `text` attribute whenever there is one, even an empty one. */
  function ItemText<O>(c: Item<O>, show: O -> string): string {
    match c.text
    case Some(t) => t
    case None => show(c.obj)
  }

  function ItemTexts<O>(cs: seq<Item<O>>, show: O -> string): (out: seq<string>)
    ensures |out| == |cs|
    ensures forall i :: 0 <= i < |cs| ==> out[i] == ItemText(cs[i], show)
  {
    if |cs| == 0 then [] else [ItemText(cs[0], show)] + ItemTexts(cs[1..], show)
  }

  /** The tool text `ChatService.process_message` sends back: a list result is
      the newline-join of each item's `text` (or `str(item)` without one), any
      other result, tuples included, is `str(result)`. */
  function ChatToolText<O>(r: ToolResult<O>, show: O -> string): string {
    match r.shape
    case ListOf(xs) => Join("\n", ItemTexts(xs, show))
    case _ => show(r.obj)
  }

  /** For a list whose items all carry `text`, the chat service's tool text is
      the newline-join of those texts, empty ones included (unlike
      `_stringify_tool_result`, which falls back to `data` or `str`); a tuple is
      shown whole rather than element by element. */
  lemma ChatToolTextSpec<O>(xs: seq<Item<O>>, obj: O, show: O -> string)
    requires forall i :: 0 <= i < |xs| ==> xs[i].text.Some?
    ensures ChatToolText(ToolResult(NoContent, ListOf(xs), obj), show) ==
            Join("\n", seq(|xs|, i requires 0 <= i < |xs| => xs[i].text.value))
    ensures ChatToolText(ToolResult(NoContent, TupleOf(xs), obj), show) == show(obj)
  {
    assert ItemTexts(xs, show) == seq(|xs|, i requires 0 <= i < |xs| => xs[i].text.value);
  }

  // ---------------------------------------------------------------------------
  // MCPBaseConnector.process_query
  // ---------------------------------------------------------------------------

  /** What `process_query` hands to `llm.generate_with_tools`: the query, the
      converted tool list, and the tool caller that executes and stringifies. */
  datatype LlmRequest = LlmRequest(query: string, tools: seq<Json>,
                                   callTool: (string, seq<Field>) -> Result<string, string>)

  /** `process_query(query)` up to the call of `generate_with_tools`, for the tool
      list the connector reports and its `execute`; an exception raised by
      `execute` propagates out of the tool caller. */
  function ConnectorRequest<O>(query: string, available: seq<Tool>,
                               execute: (string, seq<Field>) -> Result<ToolResult<O>, string>,
                               show: O -> string): LlmRequest
  {
    var tools := if |available| > 0 then McpToGemini(available) else [];
    LlmRequest(query, tools,
      (name: string, args: seq<Field>) =>
        match execute(name, args)
        case Success(res) => Success(Stringify(res, show))
        case Failure(e) => Failure(e))
  }

  /** `process_query(query)`: the model's answer to that request. */
  function ProcessQuery<O, R>(query: string, available: seq<Tool>,
                              execute: (string, seq<Field>) -> Result<ToolResult<O>, string>,
                              show: O -> string, generateWithTools: LlmRequest -> R): R
  {
    generateWithTools(ConnectorRequest(query, available, execute, show))
  }

  /** The model sees one declaration per tool the connector lists, in order
      (none when it lists none), and every tool result reaching the model went
      through `_stringify_tool_result`. */
  lemma ConnectorRequestSpec<O>(query: string, available: seq<Tool>,
                                execute: (string, seq<Field>) -> Result<ToolResult<O>, string>,
                                show: O -> string, name: string, args: seq<Field>)
    ensures var req := ConnectorRequest(query, available, execute, show);
      && req.query == query
      && |req.tools| == |available|
      && (forall i :: 0 <= i < |available| ==> DeclaredName(req.tools[i]) == Some(available[i].name))
      && (execute(name, args).Success? ==>
            req.callTool(name, args) == Success(Stringify(execute(name, args).value, show)))
      && (execute(name, args).Failure? ==> req.callTool(name, args) == Failure(execute(name, args).error))
  {
  }
}
