/** Schema cleaning and the MCP-to-Gemini declaration builder of
    tools/tool_converter.py. */
module ToolConverter {
  import opened Base
  import opened JsonValue

  /** The only key `clean_schema` removes. */
  const AdditionalProperties: string := "additionalProperties"

  // ---------------------------------------------------------------------------
  // clean_schema
  // ---------------------------------------------------------------------------

  /** `clean_schema(schema)`: a dict loses every `additionalProperties` entry, at
      this level and inside nested dicts and lists; anything that is not a dict
      is returned as it is. */
  function CleanSchema(j: Json): (r: Json)
    ensures !j.JObj? ==> r == j
    ensures j.JObj? ==> r.JObj? && |r.fields| <= |j.fields|
    decreases j, 1
  {
    match j
    case JObj(fs) => JObj(CleanFields(fs))
    case _ => j
  }

  /** The loop over `schema.items()`: `additionalProperties` is skipped, every
      other entry keeps its key and has its value cleaned. */
  function CleanFields(fs: seq<Field>): (r: seq<Field>)
    ensures |r| <= |fs|
    decreases fs, 0
  {
    if |fs| == 0 then []
    else if fs[0].key == AdditionalProperties then CleanFields(fs[1..])
    else [Field(fs[0].key, CleanValue(fs[0].val))] + CleanFields(fs[1..])
  }

  /** The value of one kept entry: a dict is cleaned, a list has
      `clean_schema` applied to each element, a scalar is copied. */
  function CleanValue(v: Json): Json
    decreases v, 2
  {
    match v
    case JObj(_) => CleanSchema(v)
    case JArr(items) => JArr(CleanItems(items))
    case _ => v
  }

  /** `[clean_schema(i) for i in v]`. A list element that is itself a list is not
      a dict, so `clean_schema` hands it back untouched. */
  function CleanItems(items: seq<Json>): (r: seq<Json>)
    ensures |r| == |items|
    decreases items, 0
  {
    if |items| == 0 then [] else [CleanSchema(items[0])] + CleanItems(items[1..])
  }

  // ---------------------------------------------------------------------------
  // What a cleaned schema looks like
  // ---------------------------------------------------------------------------

  /** No entry of the dict is keyed `additionalProperties`, and the same holds
      inside every dict `clean_schema` descends into. */
  predicate CleanedFields(fs: seq<Field>)
    decreases fs, 0
  {
    |fs| == 0 ||
    (fs[0].key != AdditionalProperties && CleanedValue(fs[0].val) && CleanedFields(fs[1..]))
  }

  /** A value `clean_schema` would leave alone: a cleaned dict, a list whose dict
      elements are cleaned, or a scalar. */
  predicate CleanedValue(v: Json)
    decreases v, 2
  {
    match v
    case JObj(fs) => CleanedFields(fs)
    case JArr(items) => CleanedItems(items)
    case _ => true
  }

  predicate CleanedItems(items: seq<Json>)
    decreases items, 0
  {
    |items| == 0 ||
    ((items[0].JObj? ==> CleanedFields(items[0].fields)) && CleanedItems(items[1..]))
  }

  /** The top-level dict of a cleaned schema has no `additionalProperties` key. */
  lemma {:induction false} CleanedHasNoAdditionalProperties(fs: seq<Field>)
    requires CleanedFields(fs)
    ensures AdditionalProperties !in Keys(fs)
    ensures Get(fs, AdditionalProperties).None?
    decreases fs
  {
    if |fs| > 0 {
      CleanedHasNoAdditionalProperties(fs[1..]);
      assert Keys(fs) == [fs[0].key] + Keys(fs[1..]);
    }
  }

  /** Every output of `clean_schema` on a dict is cleaned at every depth it visits. */
  lemma {:induction false} CleanFieldsIsCleaned(fs: seq<Field>)
    ensures CleanedFields(CleanFields(fs))
    decreases fs, 0
  {
    if |fs| > 0 {
      CleanFieldsIsCleaned(fs[1..]);
      if fs[0].key != AdditionalProperties {
        CleanValueIsCleaned(fs[0].val);
        var r := CleanFields(fs);
        assert r[1..] == CleanFields(fs[1..]);
      }
    }
  }

  lemma {:induction false} CleanValueIsCleaned(v: Json)
    ensures CleanedValue(CleanValue(v))
    decreases v, 2
  {
    match v
    case JObj(fs) => CleanFieldsIsCleaned(fs);
    case JArr(items) => CleanItemsIsCleaned(items);
    case _ =>
  }

  lemma {:induction false} CleanItemsIsCleaned(items: seq<Json>)
    ensures CleanedItems(CleanItems(items))
    decreases items, 0
  {
    if |items| > 0 {
      CleanItemsIsCleaned(items[1..]);
      if items[0].JObj? {
        CleanFieldsIsCleaned(items[0].fields);
      }
      var r := CleanItems(items);
      assert r[1..] == CleanItems(items[1..]);
    }
  }

  /** A schema that is already cleaned comes back unchanged. */
  lemma {:induction false} CleanFieldsFixpoint(fs: seq<Field>)
    requires CleanedFields(fs)
    ensures CleanFields(fs) == fs
    decreases fs, 0
  {
    if |fs| > 0 {
      CleanFieldsFixpoint(fs[1..]);
      CleanValueFixpoint(fs[0].val);
      assert fs == [Field(fs[0].key, fs[0].val)] + fs[1..];
    }
  }

  lemma {:induction false} CleanValueFixpoint(v: Json)
    requires CleanedValue(v)
    ensures CleanValue(v) == v
    decreases v, 2
  {
    match v
    case JObj(fs) => CleanFieldsFixpoint(fs);
    case JArr(items) => CleanItemsFixpoint(items);
    case _ =>
  }

  lemma {:induction false} CleanItemsFixpoint(items: seq<Json>)
    requires CleanedItems(items)
    ensures CleanItems(items) == items
    decreases items, 0
  {
    if |items| > 0 {
      CleanItemsFixpoint(items[1..]);
      if items[0].JObj? {
        CleanFieldsFixpoint(items[0].fields);
      }
      assert items == [items[0]] + items[1..];
    }
  }

  /** `clean_schema` leaves a schema unchanged exactly when it is already cleaned
      (a non-dict always counts as cleaned). */
  lemma CleanSchemaFixpointIff(j: Json)
    ensures CleanSchema(j) == j <==> (j.JObj? ==> CleanedFields(j.fields))
  {
    if j.JObj? {
      if CleanSchema(j) == j {
        CleanFieldsIsCleaned(j.fields);
      }
      if CleanedFields(j.fields) {
        CleanFieldsFixpoint(j.fields);
      }
    }
  }

  /** Cleaning twice is cleaning once. */
  lemma CleanSchemaIdempotent(j: Json)
    ensures CleanSchema(CleanSchema(j)) == CleanSchema(j)
  {
    if j.JObj? {
      CleanFieldsIsCleaned(j.fields);
      CleanFieldsFixpoint(CleanFields(j.fields));
    }
  }

  /** The output of `clean_schema` on a dict has no `additionalProperties` key,
      and the dicts it holds (directly or as list elements) are cleaned too. */
  lemma CleanSchemaRemovesAdditionalProperties(fs: seq<Field>)
    ensures CleanedFields(CleanFields(fs))
    ensures Get(CleanFields(fs), AdditionalProperties).None?
  {
    CleanFieldsIsCleaned(fs);
    CleanedHasNoAdditionalProperties(CleanFields(fs));
  }

  /** Looking a key up after cleaning is looking it up before and cleaning the
      value found; only `additionalProperties` disappears. */
  lemma {:induction false} CleanFieldsGet(fs: seq<Field>, key: string)
    ensures Get(CleanFields(fs), key) ==
      if key == AdditionalProperties then None
      else match Get(fs, key)
        case None => None
        case Some(v) => Some(CleanValue(v))
    decreases fs
  {
    if |fs| > 0 {
      CleanFieldsGet(fs[1..], key);
      if key == AdditionalProperties {
        CleanFieldsIsCleaned(fs);
        CleanedHasNoAdditionalProperties(CleanFields(fs));
      }
    }
  }

  /** Cleaning works entry by entry, so it keeps the order of the entries it keeps. */
  lemma {:induction false} CleanFieldsAppend(a: seq<Field>, b: seq<Field>)
    ensures CleanFields(a + b) == CleanFields(a) + CleanFields(b)
    decreases a
  {
    if |a| > 0 {
      assert (a + b)[0] == a[0];
      assert (a + b)[1..] == a[1..] + b;
      CleanFieldsAppend(a[1..], b);
    } else {
      assert a + b == b;
    }
  }

  /** Cleaning introduces no key the schema did not have. */
  lemma CleanFieldsKeys(fs: seq<Field>, k: string)
    requires k in Keys(CleanFields(fs))
    ensures k in Keys(fs) && k != AdditionalProperties
  {
    CleanFieldsGet(fs, k);
  }

  /** Keys that were unique stay unique. */
  lemma {:induction false} CleanFieldsUnique(fs: seq<Field>)
    requires UniqueKeys(fs)
    ensures UniqueKeys(CleanFields(fs))
    decreases fs
  {
    if |fs| > 0 {
      var rest := CleanFields(fs[1..]);
      CleanFieldsUnique(fs[1..]);
      if fs[0].key != AdditionalProperties {
        assert fs[0].key !in Keys(fs[1..]) by {
          forall i | 0 <= i < |fs| - 1
            ensures Keys(fs[1..])[i] != fs[0].key
          {
            assert fs[1..][i] == fs[i + 1];
          }
        }
        var r := CleanFields(fs);
        assert r == [Field(fs[0].key, CleanValue(fs[0].val))] + rest;
        forall i, j | 0 <= i < j < |r|
          ensures r[i].key != r[j].key
        {
          assert r[j] == rest[j - 1];
          if i == 0 {
            assert Keys(rest)[j - 1] == rest[j - 1].key;
            CleanFieldsKeys(fs[1..], rest[j - 1].key);
          } else {
            assert r[i] == rest[i - 1];
          }
        }
      }
    }
  }

  /** Lists of lists are not descended into: a dict two lists deep keeps its
      `additionalProperties` entry. */
  lemma NestedListIsNotCleaned()
    ensures var inner := JObj([Field(AdditionalProperties, JBool(false))]);
            var schema := JObj([Field("items", JArr([JArr([inner])]))]);
            CleanSchema(schema) == schema
  {
    var inner := JObj([Field(AdditionalProperties, JBool(false))]);
    var outer := JArr([inner]);
    assert CleanSchema(outer) == outer;
    assert CleanItems([outer]) == [CleanSchema(outer)] + CleanItems([]);
    assert CleanValue(JArr([outer])) == JArr([outer]);
    var fs := [Field("items", JArr([outer]))];
    assert CleanFields(fs) == [Field("items", CleanValue(JArr([outer])))] + CleanFields(fs[1..]);
  }

  // ---------------------------------------------------------------------------
  // mcp_to_gemini
  // ---------------------------------------------------------------------------

  /** An MCP tool descriptor. `inputSchema` is a dict when present. */
  datatype Tool = Tool(name: string, description: Option<string>, inputSchema: Option<seq<Field>>)

  /** The parameter block every declaration starts from. */
  const DefaultParameters: Json :=
    JObj([Field("type", JStr("object")), Field("properties", JObj([])), Field("required", JArr([]))])

  /** `tool.description` as a JSON value: `None` is `null`. */
  function DescriptionJson(d: Option<string>): Json {
    match d
    case Some(s) => JStr(s)
    case None => JNull
  }

  /** The tool has an `inputSchema` attribute that is truthy (a non-empty dict). */
  predicate HasSchema(t: Tool) {
    t.inputSchema.Some? && t.inputSchema.value != []
  }

  /** The value `schema` holds under `key`, cleaned, or `default` when absent. */
  function CleanedEntry(schema: seq<Field>, key: string, default: Json): Json {
    match Get(schema, key)
    case Some(v) => CleanValue(v)
    case None => default
  }

  /** The `parameters` block of a declaration: the default block, with
      `properties` and `required` replaced by those of the cleaned schema when it
      has them. */
  function Parameters(t: Tool): Json {
    if HasSchema(t) then
      var schema := CleanSchema(JObj(t.inputSchema.value)).fields;
      JObj([Field("type", JStr("object")),
            Field("properties", Get(schema, "properties").GetOr(JObj([]))),
            Field("required", Get(schema, "required").GetOr(JArr([])))])
    else
      DefaultParameters
  }

  /** The parameter block always has type `object` and exactly the keys `type`,
      `properties`, `required`; without a schema it is the default block, and
      with one it carries the schema's own `properties` and `required`, cleaned. */
  lemma ParametersSpec(t: Tool)
    ensures var r := Parameters(t);
      && r.JObj? && Keys(r.fields) == ["type", "properties", "required"]
      && Get(r.fields, "type") == Some(JStr("object"))
      && (!HasSchema(t) ==> r == DefaultParameters)
      && (HasSchema(t) ==>
            && Get(r.fields, "properties") == Some(CleanedEntry(t.inputSchema.value, "properties", JObj([])))
            && Get(r.fields, "required") == Some(CleanedEntry(t.inputSchema.value, "required", JArr([]))))
  {
    var r := Parameters(t);
    assert Keys(r.fields) == [r.fields[0].key] + Keys(r.fields[1..]);
    assert Keys(r.fields[1..]) == [r.fields[1].key] + Keys(r.fields[2..]);
    assert Keys(r.fields[2..]) == [r.fields[2].key] + Keys(r.fields[3..]);
    if HasSchema(t) {
      CleanFieldsGet(t.inputSchema.value, "properties");
      CleanFieldsGet(t.inputSchema.value, "required");
    }
  }

  /** One function declaration: name, description and parameters. */
  function Declaration(t: Tool, parameters: Json): Json {
    JObj([Field("name", JStr(t.name)), Field("description", DescriptionJson(t.description)),
          Field("parameters", parameters)])
  }

  /** `{"function_declarations": [decl]}`. */
  function Wrap(decl: Json): Json {
    JObj([Field("function_declarations", JArr([decl]))])
  }

  /** The entries of the declaration a catalog entry wraps, if it is of the
      form `{"function_declarations": [decl]}` with `decl` a dict. */
  function DeclaredFields(entry: Json): Option<seq<Field>> {
    if entry.JObj? && |entry.fields| == 1 && entry.fields[0].key == "function_declarations"
       && entry.fields[0].val.JArr? && |entry.fields[0].val.items| == 1
       && entry.fields[0].val.items[0].JObj?
    then Some(entry.fields[0].val.items[0].fields)
    else None
  }

  /** The tool name a catalog entry declares, if it is a wrapped declaration. */
  function DeclaredName(entry: Json): Option<string> {
    match DeclaredFields(entry)
    case Some(fs) =>
      (match Get(fs, "name")
       case Some(JStr(n)) => Some(n)
       case _ => None)
    case None => None
  }

  /** The description a catalog entry declares, if it is a wrapped declaration. */
  function DeclaredDescription(entry: Json): Option<Json> {
    match DeclaredFields(entry)
    case Some(fs) => Get(fs, "description")
    case None => None
  }

  /** The parameters a catalog entry declares, if it is a wrapped declaration. */
  function DeclaredParameters(entry: Json): Option<Json> {
    match DeclaredFields(entry)
    case Some(fs) => Get(fs, "parameters")
    case None => None
  }

  /** `entry` is a wrapped declaration with exactly the keys name, description
      and parameters, holding the tool's name, the tool's description (`null`
      when it has none) and `parameters`. */
  predicate Declares(entry: Json, t: Tool, parameters: Json) {
    && DeclaredFields(entry).Some?
    && Keys(DeclaredFields(entry).value) == ["name", "description", "parameters"]
    && DeclaredName(entry) == Some(t.name)
    && DeclaredDescription(entry) == Some(DescriptionJson(t.description))
    && DeclaredParameters(entry) == Some(parameters)
  }

  /** A wrapped declaration declares its tool with the given parameters. */
  lemma WrapDeclares(t: Tool, parameters: Json)
    ensures Declares(Wrap(Declaration(t, parameters)), t, parameters)
  {
    var fs := Declaration(t, parameters).fields;
    assert Keys(fs) == ["name", "description", "parameters"];
    assert fs[1..][1..] == [Field("parameters", parameters)];
    assert Get(fs[1..], "parameters") == Get(fs[1..][1..], "parameters");
  }

  /** The declarations of `mcp_to_gemini`, one wrapped declaration per tool,
      in tool order. */
  function DeclareAll(tools: seq<Tool>): seq<Json>
    decreases |tools|
  {
    if |tools| == 0 then []
    else [Wrap(Declaration(tools[0], Parameters(tools[0])))] + DeclareAll(tools[1..])
  }

  lemma {:induction false} DeclareAllAt(tools: seq<Tool>)
    ensures |DeclareAll(tools)| == |tools|
    ensures forall i :: 0 <= i < |tools| ==> DeclareAll(tools)[i] == Wrap(Declaration(tools[i], Parameters(tools[i])))
    decreases |tools|
  {
    if |tools| > 0 {
      DeclareAllAt(tools[1..]);
      forall i | 1 <= i < |tools|
        ensures DeclareAll(tools)[i] == Wrap(Declaration(tools[i], Parameters(tools[i])))
      {
        assert DeclareAll(tools)[i] == DeclareAll(tools[1..])[i - 1];
        assert tools[i] == tools[1..][i - 1];
      }
    }
  }

  lemma DeclareAllDeclares(tools: seq<Tool>)
    ensures |DeclareAll(tools)| == |tools|
    ensures forall i :: 0 <= i < |tools| ==> Declares(DeclareAll(tools)[i], tools[i], Parameters(tools[i]))
  {
    DeclareAllAt(tools);
    forall i | 0 <= i < |tools|
      ensures Declares(DeclareAll(tools)[i], tools[i], Parameters(tools[i]))
    {
      WrapDeclares(tools[i], Parameters(tools[i]));
    }
  }

  lemma {:induction false} DeclareAllAppend(a: seq<Tool>, b: seq<Tool>)
    ensures DeclareAll(a + b) == DeclareAll(a) + DeclareAll(b)
    decreases |a|
  {
    if |a| == 0 {
      assert a + b == b;
    } else {
      assert (a + b)[0] == a[0];
      assert (a + b)[1..] == a[1..] + b;
      DeclareAllAppend(a[1..], b);
    }
  }

  /** `mcp_to_gemini(tools)`: one wrapped declaration per tool, in tool order,
      holding exactly that tool's name, description and parameter block. */
  function McpToGemini(tools: seq<Tool>): (r: seq<Json>)
    ensures |r| == |tools|
    ensures forall i :: 0 <= i < |tools| ==>
      Declares(r[i], tools[i], Parameters(tools[i]))
  {
    DeclareAllDeclares(tools);
    DeclareAll(tools)
  }

  /** Converting tool lists one by one and concatenating is converting their
      concatenation. */
  lemma McpToGeminiAppend(a: seq<Tool>, b: seq<Tool>)
    ensures McpToGemini(a + b) == McpToGemini(a) + McpToGemini(b)
  {
    DeclareAllAppend(a, b);
  }
}
