/** The Gemini-specific declaration builder `GeminiLLM.convert_mcp_tools_to_gemini`
    of llm/gemini_llm.py: like `mcp_to_gemini`, but every property schema is cut
    down to an allow-list of keys. */
module GeminiCatalog {
  import opened Base
  import opened JsonValue
  import opened ToolConverter

  /** The `items` an array property gets when its schema names none. */
  const StringItems: Json := JObj([Field("type", JStr("string"))])

  /** The keys a cleaned property may carry. */
  const AllowedPropertyKeys: set<string> := {"type", "description", "enum", "items"}

  /** `[key: value]` when the dict has `key`, nothing otherwise. */
  function CopyEntry(fs: seq<Field>, key: string): seq<Field> {
    match Get(fs, key)
    case Some(v) => [Field(key, v)]
    case None => []
  }

  /** The property's schema says `"type": "array"`. */
  predicate IsArrayProperty(fs: seq<Field>) {
    Get(fs, "type") == Some(JStr("array"))
  }

  /** The `items` entry: present for arrays only, defaulting to string items. */
  function ItemsEntry(fs: seq<Field>): seq<Field> {
    if IsArrayProperty(fs) then [Field("items", Get(fs, "items").GetOr(StringItems))] else []
  }

  /** One property schema reduced to `type`, `description`, `enum` and, for
      arrays, `items`; a property whose schema is not a dict becomes `{}`. */
  function CleanProperty(p: Json): Json {
    match p
    case JObj(fs) =>
      JObj(CopyEntry(fs, "type") + CopyEntry(fs, "description") + CopyEntry(fs, "enum") + ItemsEntry(fs))
    case _ => JObj([])
  }

  lemma CopyEntryFacts(fs: seq<Field>, key: string, other: string)
    ensures Keys(CopyEntry(fs, key)) == if key in Keys(fs) then [key] else []
    ensures other != key ==> Get(CopyEntry(fs, key), other).None?
    ensures Get(CopyEntry(fs, key), key) == Get(fs, key)
  {
  }

  /** The four parts a cleaned dict property is assembled from. */
  lemma PropertyParts(fs: seq<Field>) returns (a: seq<Field>, b: seq<Field>, c: seq<Field>, d: seq<Field>)
    ensures CleanProperty(JObj(fs)).fields == a + (b + (c + d))
    ensures a == CopyEntry(fs, "type") && b == CopyEntry(fs, "description")
    ensures c == CopyEntry(fs, "enum") && d == ItemsEntry(fs)
  {
    a, b, c, d := CopyEntry(fs, "type"), CopyEntry(fs, "description"), CopyEntry(fs, "enum"), ItemsEntry(fs);
    assert a + b + c + d == a + (b + (c + d));
  }

  /** A copied entry holds at most the one key it copies. */
  lemma CopyEntryKeys(fs: seq<Field>, key: string)
    ensures UniqueKeys(CopyEntry(fs, key))
    ensures forall k :: k in Keys(CopyEntry(fs, key)) ==> k == key
  {
    CopyEntryFacts(fs, key, key);
  }

  /** The `enum` and `items` entries of a cleaned property. */
  lemma TailKeys(fs: seq<Field>)
    ensures var tail := CopyEntry(fs, "enum") + ItemsEntry(fs);
      && UniqueKeys(tail)
      && forall k :: k in Keys(tail) ==> k == "enum" || k == "items"
  {
    CopyEntryKeys(fs, "enum");
    assert forall k :: k in Keys(ItemsEntry(fs)) ==> k == "items";
    UniqueAppend(CopyEntry(fs, "enum"), ItemsEntry(fs));
  }

  /** The `description`, `enum` and `items` entries of a cleaned property. */
  lemma MiddleKeys(fs: seq<Field>)
    ensures var tail := CopyEntry(fs, "description") + (CopyEntry(fs, "enum") + ItemsEntry(fs));
      && UniqueKeys(tail)
      && forall k :: k in Keys(tail) ==> k == "description" || k == "enum" || k == "items"
  {
    TailKeys(fs);
    CopyEntryKeys(fs, "description");
    UniqueAppend(CopyEntry(fs, "description"), CopyEntry(fs, "enum") + ItemsEntry(fs));
  }

  /** A cleaned property is a dict whose keys are distinct and come from the
      allow-list; a non-dict property schema gives `{}`. */
  lemma CleanPropertyKeys(p: Json)
    ensures CleanProperty(p).JObj?
    ensures UniqueKeys(CleanProperty(p).fields)
    ensures forall k :: k in Keys(CleanProperty(p).fields) ==> k in AllowedPropertyKeys
    ensures !p.JObj? ==> CleanProperty(p).fields == []
  {
    if p.JObj? {
      var a, b, c, d := PropertyParts(p.fields);
      MiddleKeys(p.fields);
      CopyEntryKeys(p.fields, "type");
      UniqueAppend(a, b + (c + d));
    }
  }

  /** One copied key of a cleaned dict property holds the schema's own value. */
  lemma CopiedEntry(fs: seq<Field>, key: string)
    requires key == "type" || key == "description" || key == "enum"
    ensures Get(CleanProperty(JObj(fs)).fields, key) == Get(fs, key)
  {
    var a, b, c, d := PropertyParts(fs);
    CopyEntryFacts(fs, "type", key);
    CopyEntryFacts(fs, "description", key);
    CopyEntryFacts(fs, "enum", key);
    assert Get(d, key).None?;
    GetAppend(c, d, key);
    GetAppend(b, c + d, key);
    GetAppend(a, b + (c + d), key);
  }

  /** A cleaned dict property carries the schema's own `type`, `description` and
      `enum`, unchanged. */
  lemma CleanPropertyCopies(fs: seq<Field>)
    ensures Get(CleanProperty(JObj(fs)).fields, "type") == Get(fs, "type")
    ensures Get(CleanProperty(JObj(fs)).fields, "description") == Get(fs, "description")
    ensures Get(CleanProperty(JObj(fs)).fields, "enum") == Get(fs, "enum")
  {
    CopiedEntry(fs, "type");
    CopiedEntry(fs, "description");
    CopiedEntry(fs, "enum");
  }

  /** A cleaned property has `items` exactly when its schema is an array: the
      schema's own `items`, or string items when it names none. */
  lemma CleanPropertyItems(p: Json)
    ensures p.JObj? && IsArrayProperty(p.fields) ==>
      Get(CleanProperty(p).fields, "items") == Some(Get(p.fields, "items").GetOr(StringItems))
    ensures !(p.JObj? && IsArrayProperty(p.fields)) ==> Get(CleanProperty(p).fields, "items").None?
  {
    if p.JObj? {
      var a, b, c, d := PropertyParts(p.fields);
      GetAppend(c, d, "items");
      GetAppend(b, c + d, "items");
      GetAppend(a, b + (c + d), "items");
    }
  }

  /** The loop over `schema["properties"].items()`: every property name is kept,
      in order, with its schema cleaned. */
  function CleanProperties(pfs: seq<Field>): (r: seq<Field>)
    ensures |r| == |pfs|
    ensures forall i :: 0 <= i < |pfs| ==> r[i].key == pfs[i].key && r[i].val == CleanProperty(pfs[i].val)
  {
    if |pfs| == 0 then [] else [Field(pfs[0].key, CleanProperty(pfs[0].val))] + CleanProperties(pfs[1..])
  }

  /** The tool's schema has a `properties` entry that is not a dict, on which
      `.items()` raises `AttributeError`. */
  predicate PropertiesNotDict(t: Tool) {
    HasSchema(t) &&
    match Get(t.inputSchema.value, "properties")
    case Some(p) => !p.JObj?
    case None => false
  }

  /** The `parameters` block built from a tool's cleaned schema: type `object`,
      the cleaned `properties` (`{}` when absent) and `required` (`[]` when
      absent); or the message of the `AttributeError` that `.items()` raises on
      a non-dict `properties`. */
  function SchemaParameters(schema: seq<Field>): Result<Json, string> {
    var required := Get(schema, "required").GetOr(JArr([]));
    match Get(schema, "properties")
    case None =>
      Success(JObj([Field("type", JStr("object")), Field("properties", JObj([])), Field("required", required)]))
    case Some(JObj(pfs)) =>
      Success(JObj([Field("type", JStr("object")), Field("properties", JObj(CleanProperties(pfs))),
                    Field("required", required)]))
    case Some(other) =>
      Failure("'" + TypeName(other) + "' object has no attribute 'items'")
  }

  /** `convert_mcp_tools_to_gemini` for one tool: the declaration, or the message
      of the `AttributeError` raised on a non-dict `properties`. */
  function ConvertTool(t: Tool): Result<Json, string> {
    if HasSchema(t) then
      match SchemaParameters(CleanSchema(JObj(t.inputSchema.value)).fields)
      case Failure(e) => Failure(e)
      case Success(params) => Success(Wrap(Declaration(t, params)))
    else
      Success(Wrap(Declaration(t, DefaultParameters)))
  }

  /** Every property schema under `properties` is a dict holding only allowed keys. */
  predicate PropertiesAllowed(params: seq<Field>) {
    match Get(params, "properties")
    case Some(JObj(pfs)) =>
      forall i :: 0 <= i < |pfs| ==>
        pfs[i].val.JObj? && forall k :: k in Keys(pfs[i].val.fields) ==> k in AllowedPropertyKeys
    case _ => true
  }

  /** The block fails exactly on a non-dict `properties`, and the message names
      that value's type. */
  lemma SchemaParametersFails(schema: seq<Field>)
    ensures var props := Get(schema, "properties");
      SchemaParameters(schema).Failure? <==> props.Some? && !props.value.JObj?
    ensures SchemaParameters(schema).Failure? ==>
      SchemaParameters(schema).error == "'" + TypeName(Get(schema, "properties").value) + "' object has no attribute 'items'"
  {
  }

  /** A built block has exactly the keys type, properties and required, with
      type `object`, the schema's `required` (or `[]`), and the schema's
      properties, in order, each cut down by `CleanProperty`. */
  lemma SchemaParametersSpec(schema: seq<Field>)
    ensures SchemaParameters(schema).Success? ==>
      var p := SchemaParameters(schema).value;
      && p.JObj?
      && Keys(p.fields) == ["type", "properties", "required"]
      && Get(p.fields, "type") == Some(JStr("object"))
      && Get(p.fields, "required") == Some(Get(schema, "required").GetOr(JArr([])))
      && Get(p.fields, "properties") == Some(JObj(CleanProperties(Get(schema, "properties").GetOr(JObj([])).fields)))
  {
    match SchemaParameters(schema)
    case Failure(_) =>
    case Success(p) =>
      var fs := p.fields;
      assert Keys(fs) == ["type", "properties", "required"];
      assert fs[1..][1..] == [fs[2]];
  }

  /** A built block keeps only allowed keys in every property schema. */
  lemma SchemaParametersAllowed(schema: seq<Field>)
    ensures SchemaParameters(schema).Success? ==> PropertiesAllowed(SchemaParameters(schema).value.fields)
  {
    SchemaParametersSpec(schema);
    if SchemaParameters(schema).Success? {
      var pfs := Get(schema, "properties").GetOr(JObj([])).fields;
      var cp := CleanProperties(pfs);
      forall i | 0 <= i < |cp|
        ensures cp[i].val.JObj? && forall k :: k in Keys(cp[i].val.fields) ==> k in AllowedPropertyKeys
      {
        CleanPropertyKeys(pfs[i].val);
      }
    }
  }

  /** Cleaning a tool's schema keeps whether its `properties` is a dict, and
      the type it reports. */
  lemma CleanedProperties(t: Tool)
    requires HasSchema(t)
    ensures var props := Get(CleanFields(t.inputSchema.value), "properties");
      && (props.Some? && !props.value.JObj? <==> PropertiesNotDict(t))
      && (PropertiesNotDict(t) ==> TypeName(props.value) == TypeName(Get(t.inputSchema.value, "properties").value))
  {
    CleanFieldsGet(t.inputSchema.value, "properties");
  }

  /** A single tool converts exactly when its `properties` is absent or a dict. */
  lemma ConvertToolFails(t: Tool)
    ensures ConvertTool(t).Failure? <==> PropertiesNotDict(t)
  {
    if HasSchema(t) {
      CleanedProperties(t);
      SchemaParametersFails(CleanFields(t.inputSchema.value));
    }
  }

  /** A converted tool declares its own name. */
  lemma ConvertToolNamed(t: Tool)
    ensures ConvertTool(t).Failure? <==> PropertiesNotDict(t)
    ensures ConvertTool(t).Success? ==> DeclaredName(ConvertTool(t).value) == Some(t.name)
  {
    ConvertToolFails(t);
    if HasSchema(t) {
      match SchemaParameters(CleanFields(t.inputSchema.value))
      case Failure(_) =>
      case Success(params) => WrapDeclares(t, params);
    } else {
      WrapDeclares(t, DefaultParameters);
    }
  }

  /** A single tool converts unless its `properties` is not a dict; a converted
      tool declares exactly its own name, its own description and a parameter
      block of type `object` with properties cut down to the allow-list. A tool without a schema gets the block `mcp_to_gemini` gives. */
  lemma ConvertToolSpec(t: Tool)
    ensures ConvertTool(t).Failure? <==> PropertiesNotDict(t)
    ensures ConvertTool(t).Success? ==>
      var d := ConvertTool(t).value;
      && DeclaredFields(d).Some?
      && Keys(DeclaredFields(d).value) == ["name", "description", "parameters"]
      && DeclaredName(d) == Some(t.name)
      && DeclaredDescription(d) == Some(DescriptionJson(t.description))
      && DeclaredParameters(d).Some? && DeclaredParameters(d).value.JObj?
      && Get(DeclaredParameters(d).value.fields, "type") == Some(JStr("object"))
      && (!HasSchema(t) ==> DeclaredParameters(d) == Some(DefaultParameters) == Some(Parameters(t)))
      && PropertiesAllowed(DeclaredParameters(d).value.fields)
  {
    ConvertToolFails(t);
    if HasSchema(t) {
      var schema := CleanFields(t.inputSchema.value);
      SchemaParametersSpec(schema);
      SchemaParametersAllowed(schema);
      match SchemaParameters(schema)
      case Failure(_) =>
      case Success(params) => WrapDeclares(t, params);
    } else {
      WrapDeclares(t, DefaultParameters);
      ParametersSpec(t);
    }
  }

  /** The `AttributeError` names the type of the offending `properties` value
      (cleaning keeps the type of a value). */
  lemma ConvertToolError(t: Tool)
    ensures ConvertTool(t).Failure? ==>
      && PropertiesNotDict(t)
      && ConvertTool(t).error == "'" + TypeName(Get(t.inputSchema.value, "properties").value) + "' object has no attribute 'items'"
  {
    if HasSchema(t) {
      CleanedProperties(t);
      SchemaParametersFails(CleanFields(t.inputSchema.value));
    }
  }

  /** With a schema, the converted tool's `parameters` block is the one
      `mcp_to_gemini` builds, except that each property schema is cut down by
      `CleanProperty`: the same `required`, the same property names in the same
      order. */
  lemma ConvertToolParameters(t: Tool)
    ensures ConvertTool(t).Success? && HasSchema(t) ==>
      var params := DeclaredParameters(ConvertTool(t).value);
      var base := Parameters(t).fields;
      && params.Some? && params.value.JObj?
      && Keys(params.value.fields) == Keys(base) == ["type", "properties", "required"]
      && Get(params.value.fields, "required") == Get(base, "required")
      && Get(params.value.fields, "required") == Some(CleanedEntry(t.inputSchema.value, "required", JArr([])))
      && Get(base, "properties").Some? && Get(base, "properties").value.JObj?
      && Get(params.value.fields, "properties") == Some(JObj(CleanProperties(Get(base, "properties").value.fields)))
  {
    if HasSchema(t) && ConvertTool(t).Success? {
      var schema := CleanFields(t.inputSchema.value);
      CleanedProperties(t);
      SchemaParametersFails(schema);
      SchemaParametersSpec(schema);
      ParametersSpec(t);
      CleanFieldsGet(t.inputSchema.value, "properties");
      var params := SchemaParameters(schema).value;
      WrapDeclares(t, params);
      var base := Parameters(t).fields;
      assert base[1..][1..] == [base[2]];
      assert Get(base, "properties") == Some(Get(schema, "properties").GetOr(JObj([])));
      assert Get(base, "required") == Some(Get(schema, "required").GetOr(JArr([])));
    }
  }

  /** `convert_mcp_tools_to_gemini(tools)`: one declaration per tool, in order,
      each the one `ConvertTool` gives; the first `AttributeError` aborts the
      whole conversion. */
  function ConvertTools(tools: seq<Tool>): (r: Result<seq<Json>, string>)
    ensures r.Failure? <==> exists i :: 0 <= i < |tools| && PropertiesNotDict(tools[i])
    ensures r.Success? ==> |r.value| == |tools|
    ensures r.Success? ==> forall i :: 0 <= i < |tools| ==>
      ConvertTool(tools[i]).Success? && r.value[i] == ConvertTool(tools[i]).value
    ensures r.Success? ==> forall i :: 0 <= i < |tools| ==> DeclaredName(r.value[i]) == Some(tools[i].name)
  {
    ConvertToolsNamed(tools);
    MapAll(tools, ConvertTool)
  }

  lemma ConvertToolsNamed(tools: seq<Tool>)
    ensures forall i :: 0 <= i < |tools| ==>
      && (ConvertTool(tools[i]).Failure? <==> PropertiesNotDict(tools[i]))
      && (ConvertTool(tools[i]).Success? ==> DeclaredName(ConvertTool(tools[i]).value) == Some(tools[i].name))
  {
    forall i | 0 <= i < |tools| {
      ConvertToolNamed(tools[i]);
    }
  }

  /** The error of a failed conversion is that of the first tool that fails. */
  lemma ConvertToolsFirstError(tools: seq<Tool>)
    ensures ConvertTools(tools).Failure? ==>
      exists i :: 0 <= i < |tools| && ConvertTool(tools[i]) == Failure(ConvertTools(tools).error)
                  && forall j :: 0 <= j < i ==> ConvertTool(tools[j]).Success?
  {
    MapAllFirstFailure(tools, ConvertTool);
  }

  /** Converting a concatenation converts the first list, then the second; the
      first failure wins. */
  lemma ConvertToolsAppend(a: seq<Tool>, b: seq<Tool>)
    ensures ConvertTools(a + b) ==
      match ConvertTools(a)
      case Failure(e) => Failure(e)
      case Success(x) =>
        (match ConvertTools(b)
         case Failure(e) => Failure(e)
         case Success(y) => Success(x + y))
  {
    MapAllAppend(a, b, ConvertTool);
  }
}
