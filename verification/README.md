# chat_mcp tool catalog and dispatch, in Dafny

This project models the core of chat_mcp. chat_mcp is a chat front end that
connects MCP tool servers to the Gemini model. The project covers five pieces:

- **Schema cleaning and catalog building.** `clean_schema` and `mcp_to_gemini`
  (tools/tool_converter.py). `GeminiLLM.convert_mcp_tools_to_gemini`
  (llm/gemini_llm.py), which cuts every property schema down to an allow-list.
- **Dispatch.** `GeminiLLM.process_query` and `ChatService.process_message`.
  Each builds a tool-name to connector-name index, asks the model once, and
  folds the parts of its first candidate into one text. A part is either a
  function call (warn, or execute plus follow-up model call) or text.
- **Result stringification.** `MCPBaseConnector._stringify_tool_result` and
  `process_query` (connectors/mcp_base_connector.py). Also the list-to-text
  step of `ChatService`.
- **The connector registry.** `MCPManager.register`, `get` and `all`
  (services/mcp_manager.py).
- **The Mediatool client.** `make_request`'s decisions
  (camphouse_mcp/tools/requests.py): token check, URL join, body choice, the
  204 rule and the error-message precedence. Also `get_mediatypes_data`
  (camphouse_mcp/camphouse_connector/mediatypes/main.py).

## How the model is built

JSON values are the datatype `JsonValue.Json`:

- integers stand for all numbers;
- dicts are ordered entry sequences, so insertion order is visible;
- `Get` is `dict.get`, returning the first entry with the key.

Python's exceptions are `Base.Result` values: `Failure(message)`.

Everything the code calls but does not define is a function-typed parameter,
so every theorem holds whatever those functions do. These are:

- the Gemini SDK's `generate_content`, as `generate`;
- a connector's `execute`;
- the follow-up model call, as `followUp`;
- `generate_with_tools`;
- the HTTP library, as `send`;
- `json.dumps`;
- Python's `str()` of an arbitrary object, as `show`.

The remaining inputs are parameters too:

- `tools_map` and `self.connectors`, which `GeminiLLM` reads but never sets,
  as a sequence of `Dispatch.ToolGroup` and a sequence of `Registry.Connector`;
- `mcp_manager.list_all_tools` and `mcp_manager.execute`, which `ChatService`
  calls (services/chat_service.py:13 and :47) but services/mcp_manager.py does
  not define, as the tool groups and the `execute` parameter;
- the token, which requests.py reads once from the `CAMPHOUSE_TOKEN_ID`
  environment variable (camphouse_mcp/tools/requests.py:11), as the
  `Option<string>` argument of `Requests.MakeRequest`.

`GeminiLLM` finds a connector by name with a search over `self.connectors`
that returns the first match (llm/gemini_llm.py:88). The model uses the
registry's own search, `Registry.Find`, for it: `Registry.FindFirst` proves
that it returns the first match.

Python loops that append one result per element and let the first exception
escape are `Base.MapAll`. `GeminiCatalog.ConvertTools` is `MapAll` of
`ConvertTool`.

Modules follow the source files:

| module | source |
|---|---|
| `Base`, `JsonValue` | shared vocabulary: `Option`, `Result`, `str.join`, loops that stop at the first exception, dicts |
| `ToolConverter` | tools/tool_converter.py |
| `GeminiCatalog` | `convert_mcp_tools_to_gemini` in llm/gemini_llm.py |
| `Dispatch` | the tool index and the fold over parts, shared by both dispatchers |
| `GeminiQuery` | `process_query` in llm/gemini_llm.py |
| `ChatService` | services/chat_service.py |
| `ResultText` | connectors/mcp_base_connector.py |
| `Registry` | services/mcp_manager.py |
| `Requests` | camphouse_mcp/tools/requests.py |
| `Mediatypes` | camphouse_mcp/camphouse_connector/mediatypes/main.py |

## Behaviour of the code worth knowing

- **Schema cleaning.** `clean_schema` removes only `additionalProperties`;
  every other key is kept, at every depth. It cleans the elements of a list, but a
  list nested in a list is returned as it is, so a dict two lists deep keeps
  its `additionalProperties` (`ToolConverter.NestedListIsNotCleaned`).
- **The missing import.** llm/gemini_llm.py imports `clean_schema_for_gemini`,
  which tools/tool_converter.py does not define. As written, the module fails
  to import. The model uses `clean_schema` in its place.
- **`properties` that is not a dict.** In `convert_mcp_tools_to_gemini`,
  `.items()` then raises `AttributeError`. The conversion runs before
  `process_query`'s `try`, so that exception escapes `process_query`. Every
  later exception becomes an `"Error: ..."` answer.
- **`ChatService.process_message` catches nothing.** An exception of the model,
  of `execute` or of the follow-up call propagates.
- **The two dispatchers turn tool results into text differently.**
  `ChatService` joins the texts of a list result, empty texts included. It
  shows a tuple whole, with `str()`. `_stringify_tool_result` prefers
  non-empty `text`, then `data`, then `str()`, and joins the elements of a
  tuple. Its "returned no content" fallback is unreachable: non-empty
  `content` always yields one segment per part.
- **Answers are never empty.** Both dispatchers keep only non-empty texts, and
  their warnings, error texts and sentinel are non-empty, so every answer is
  a non-empty string (`GeminiQuery.ProcessQueryNeverEmpty`,
  `ChatService.ProcessMessageNeverEmpty`).
- **Empty connector names.** Both dispatchers test the index entry for
  truthiness. A tool whose connector is named `""` is reported as unknown,
  not executed.
- **Not every failure of `make_request` is a `MediatoolAPIError`.**
  - An error status whose body is JSON but not a dict makes `.get` raise
    `AttributeError`. Nothing catches it (`Requests.FailuresAreApiErrors`).
  - A 2xx body that is not JSON raises the requests JSON decode error. That
    error is a `RequestException`, so it is reported as the "unexpected"
    `MediatoolAPIError`.
- **`get_mediatypes_data` on a 204.** `make_request` returns `None`, on which
  `.get` raises `AttributeError`.
- **No orchestration loop.** Both dispatchers make a single pass with one
  follow-up call per function call. They keep no step bound, no history and
  no sticky arguments, so the model has none of these either.

## Model

| member | source | states |
|---|---|---|
| ToolConverter.CleanSchema | tools/tool_converter.py:1-14 | a non-dict schema comes back unchanged; a dict comes back as a dict with no more entries than it had |
| ToolConverter.CleanedHasNoAdditionalProperties | tools/tool_converter.py:6-7 | a cleaned dict has no `additionalProperties` key, so `get` of it is `None` |
| ToolConverter.CleanFieldsIsCleaned | tools/tool_converter.py:5-13 | the entries `clean_schema` builds are cleaned at every depth it visits: dict values and dicts inside lists |
| ToolConverter.CleanValueIsCleaned | tools/tool_converter.py:8-13 | a kept value is cleaned: dicts recursively, lists element by element, scalars as they are |
| ToolConverter.CleanItemsIsCleaned | tools/tool_converter.py:10-11 | every element of a cleaned list is cleaned |
| ToolConverter.CleanSchemaRemovesAdditionalProperties | tools/tool_converter.py:5-11 | the output of cleaning a dict has no `additionalProperties` at any depth visited |
| ToolConverter.CleanFieldsGet | tools/tool_converter.py:5-13 | for every key, lookup after cleaning is lookup before cleaning with the value cleaned; only `additionalProperties` disappears |
| ToolConverter.CleanFieldsAppend | tools/tool_converter.py:5-13 | cleaning works entry by entry: cleaning a concatenation concatenates the cleaned parts, so order is kept |
| ToolConverter.CleanFieldsKeys | tools/tool_converter.py:5-9 | cleaning introduces no key the schema did not have, and never `additionalProperties` |
| ToolConverter.CleanFieldsUnique | tools/tool_converter.py:4-14 | a dict with distinct keys stays a dict with distinct keys |
| ToolConverter.CleanFieldsFixpoint | tools/tool_converter.py:4-14 | a dict that is already cleaned comes back unchanged |
| ToolConverter.CleanValueFixpoint | tools/tool_converter.py:8-13 | a value that is already cleaned comes back unchanged |
| ToolConverter.CleanItemsFixpoint | tools/tool_converter.py:10-11 | a list that is already cleaned comes back unchanged |
| ToolConverter.CleanSchemaFixpointIff | tools/tool_converter.py:1-14 | cleaning leaves a schema unchanged if and only if it is not a dict or is already cleaned |
| ToolConverter.CleanSchemaIdempotent | tools/tool_converter.py:1-14 | cleaning twice equals cleaning once |
| ToolConverter.NestedListIsNotCleaned | tools/tool_converter.py:10-11 | counterexample: `{"items": [[{"additionalProperties": false}]]}` is returned unchanged |
| ToolConverter.ParametersSpec | tools/tool_converter.py:19-29 | the parameter block has exactly the keys type, properties and required, with type `object`; with no or an empty schema it is the default block; otherwise properties and required are the schema's own, cleaned, or the defaults when absent |
| ToolConverter.WrapDeclares | tools/tool_converter.py:19-30 | a wrapped declaration `{"function_declarations": [decl]}` has exactly the keys name, description and parameters, holding the tool's name, its description (`null` when it has none) and the given parameters |
| ToolConverter.McpToGemini | tools/tool_converter.py:16-31 | one wrapped declaration per tool, in input order, each with exactly the keys name, description and parameters, holding that tool's name, description and parameter block |
| ToolConverter.McpToGeminiAppend | tools/tool_converter.py:16-31 | converting a concatenation of tool lists is concatenating their conversions |
| GeminiCatalog.CopyEntryFacts | llm/gemini_llm.py:33-38 | a copied entry is present exactly when the schema has the key, and holds the schema's value |
| GeminiCatalog.CleanPropertyKeys | llm/gemini_llm.py:31-41 | a cleaned property is a dict with distinct keys, all among type, description, enum and items; a non-dict property schema becomes `{}` |
| GeminiCatalog.CleanPropertyCopies | llm/gemini_llm.py:33-38 | a cleaned property carries the schema's own type, description and enum, unchanged |
| GeminiCatalog.CleanPropertyItems | llm/gemini_llm.py:39-40 | a property has items if and only if its schema has type `array`; the items are the schema's own, or `{"type":"string"}` when it names none |
| GeminiCatalog.CleanProperties | llm/gemini_llm.py:29-42 | every property name is kept, in order, with its schema cleaned |
| GeminiCatalog.SchemaParametersFails | llm/gemini_llm.py:28-30 | the parameter block fails exactly when the cleaned schema's `properties` is present and not a dict, and the message names that value's Python type |
| GeminiCatalog.SchemaParametersSpec | llm/gemini_llm.py:24-44 | a built block has exactly the keys type, properties and required, with type `object`, the schema's `required` or `[]`, and the schema's properties in order, each cut down by the property cleaning, or `{}` when absent |
| GeminiCatalog.SchemaParametersAllowed | llm/gemini_llm.py:29-42 | every property schema in a built block is a dict holding only type, description, enum and items |
| GeminiCatalog.ConvertToolNamed | llm/gemini_llm.py:18-45 | one tool fails to convert if and only if its properties is not a dict; a converted tool declares its own name |
| GeminiCatalog.ConvertToolSpec | llm/gemini_llm.py:18-46 | one tool fails to convert if and only if its properties is not a dict; otherwise the declaration has exactly the keys name, description and parameters, holds the tool's name and description, has type `object`, gets the same block as `mcp_to_gemini` without a schema, and only allow-listed property keys |
| GeminiCatalog.ConvertToolError | llm/gemini_llm.py:27-30 | a failed conversion reports `AttributeError` naming the type of the tool's own `properties` value |
| GeminiCatalog.ConvertToolParameters | llm/gemini_llm.py:24-44 | with a schema, the block has the same keys as `mcp_to_gemini`'s, the same `required` (the cleaned schema's, or `[]`) and the same property names in the same order, each property schema cut down by the property cleaning |
| GeminiCatalog.ConvertTools | llm/gemini_llm.py:18-46 | the conversion fails if and only if some tool's properties is not a dict; otherwise one declaration per tool, in order, each equal to that tool's single conversion and naming it |
| GeminiCatalog.ConvertToolsFirstError | llm/gemini_llm.py:20-30 | a failed conversion reports the error of the first tool that fails; every earlier tool converts |
| GeminiCatalog.ConvertToolsAppend | llm/gemini_llm.py:19-46 | converting a concatenation converts the first list, then the second, and the first failure wins |
| Dispatch.ToolIndexLastWins | llm/gemini_llm.py:53-62 | a tool name is indexed if and only if some connector lists it, and it is indexed to the last connector that lists it |
| Dispatch.FoldAppend | llm/gemini_llm.py:78-111 | parts are handled in order: folding a concatenation folds the first part, then the second from where the first stopped, and stops at the first exception |
| Dispatch.FoldExtends | llm/gemini_llm.py:78-111 | the pass only appends: earlier texts and executions stay first, and each part adds at most one text and one execution |
| Dispatch.FoldTextOnly | llm/gemini_llm.py:110-111 | without function calls nothing is executed, and every non-empty text is collected verbatim, in order |
| Dispatch.FoldInvocationsSound | llm/gemini_llm.py:79-108 | every execution the pass records was produced by handling one function call, so any property all handled calls have holds of all recorded executions |
| Dispatch.FoldSingleCall | llm/gemini_llm.py:79-108 | a warned call adds exactly its warning; an executed call adds its execution, plus its follow-up text when non-empty and no text when empty; an exception aborts the pass |
| Dispatch.FoldTextsNonEmpty | llm/gemini_llm.py:86-111 | when every warning is non-empty, every text the pass collects is non-empty: empty text parts and empty follow-up texts are dropped |
| Dispatch.RenderSpec | llm/gemini_llm.py:113 | the answer is the sentinel if and only if nothing was collected (or the join is the sentinel's text); otherwise it starts with the first collected text, and it is non-empty when every collected text is |
| GeminiQuery.Catalog | llm/gemini_llm.py:53-58 | converting connector by connector and extending equals converting every connector's tools at once; it fails if and only if some tool has non-dict properties, and otherwise names each tool in order |
| Registry.Find | llm/gemini_llm.py:88 | the connector lookup finds a connector of that name exactly when one is listed, and returns a listed connector with that name |
| Registry.FindFirst | llm/gemini_llm.py:88 | the connector found is the first one listed under that name |
| GeminiQuery.OnCallSpec | llm/gemini_llm.py:79-108 | an unindexed or empty-named tool gets the "no connector" warning; a missing connector instance gets the "no instance" warning; an execution runs the called tool with its arguments on the indexed, existing connector |
| GeminiQuery.ProcessQueryNeverRaises | llm/gemini_llm.py:48-118 | once the catalog converts, process_query never raises, and a model exception answers `"Error: " + message` |
| GeminiQuery.ProcessQueryAnswer | llm/gemini_llm.py:48-118 | a conversion error escapes; the model is offered tools exactly when some connector lists one; a model exception or an exception of the pass answers `"Error: " + message`; a response with parts answers the joined collected texts; one without candidates or parts answers from the response text, as `GeminiQuery.NoPartsAnswer` states |
| GeminiQuery.ProcessQueryNeverEmpty | llm/gemini_llm.py:78-118 | whenever process_query answers, the answer is non-empty |
| GeminiQuery.NoPartsAnswer | llm/gemini_llm.py:115-118 | without parts the answer is the response text when non-empty, the sentinel when empty, and `"Error: ..."` when reading it raises |
| GeminiQuery.DispatchSound | llm/gemini_llm.py:83-93 | every execution goes to the connector the index names for the called tool, and that connector exists |
| GeminiQuery.DuplicateToolGoesToLast | llm/gemini_llm.py:53-62 | with two connectors declaring one tool name, both declarations are in the catalog, but the call executes on the connector iterated last |
| GeminiQuery.OneCallThenText | llm/gemini_llm.py:79-113 | a single call to a known tool with an existing connector answers exactly the follow-up's non-empty text, after one execution on that connector |
| GeminiQuery.TextOnlyAnswerSpec | llm/gemini_llm.py:110-113 | a text-only answer executes nothing and collects each non-empty text in order; the single part "hello" answers "hello" |
| ChatService.ToolByToolIsBatch | services/chat_service.py:18-19 | converting one tool at a time and extending gives the same list as converting all the tools at once |
| ChatService.CatalogIsBatch | services/chat_service.py:17-20 | the catalog holds one declaration per tool of every connector, in order, naming that tool, even when two connectors list the same name |
| ChatService.OnCallSpec | services/chat_service.py:38-47 | a call gets the "Tool ... no encontrado" warning if and only if its tool is not indexed to a non-empty name; an execution runs on the indexed connector with the call's tool and arguments |
| ChatService.ProcessMessageEdges | services/chat_service.py:22-76 | the model is always asked with the full catalog; its exception and the pass's exception propagate; no candidates, or an empty first candidate, answers "No response generated"; otherwise the answer is the joined collected texts |
| ChatService.ProcessMessageNeverEmpty | services/chat_service.py:33-76 | whenever process_message answers, the answer is non-empty |
| ChatService.DispatchSound | services/chat_service.py:40-47 | every execution goes to the connector the index names for the called tool |
| ChatService.UnknownToolAnswer | services/chat_service.py:40-43 | a single call to a tool nobody lists answers exactly the warning and executes nothing |
| ChatService.ListResultCall | services/chat_service.py:45-71 | for a list result of text items, the follow-up receives the texts joined by newlines; its non-empty answer is the reply and its exception propagates |
| ResultText.Segments | connectors/mcp_base_connector.py:55-61 | one segment per content part, in order, chosen by the text, data, str() precedence |
| ResultText.ShowAll | connectors/mcp_base_connector.py:67-68 | one `str()` per element of a list or tuple, in order |
| ResultText.StringifyContent | connectors/mcp_base_connector.py:52-62 | with non-empty content the result is the newline-join of exactly one segment per part: the part's non-empty text, else `str(data)` |
| ResultText.StringifyWithoutContent | connectors/mcp_base_connector.py:51-69 | missing, empty or raising content falls through to the plain branch; a scalar result is `str(result)` |
| ResultText.PlainTextSnoc | connectors/mcp_base_connector.py:67-68 | one more list element adds one more line at the end of the plain text |
| ResultText.ItemTexts | services/chat_service.py:51-53 | each list item contributes its text attribute (even empty), or `str(item)` when it has none |
| ResultText.ChatToolTextSpec | services/chat_service.py:50-55 | a list of text items becomes the newline-join of their texts; a tuple becomes `str(result)` |
| ResultText.ConnectorRequestSpec | connectors/mcp_base_connector.py:37-45 | the model is offered one declaration per listed tool (none when none are listed), and every tool result reaching it is stringified; an execute exception propagates |
| Registry.Get | services/mcp_manager.py:9-10 | get returns `None` exactly for an unregistered name, and otherwise a registered connector with that name |
| Registry.PutFind | services/mcp_manager.py:6-7 | after storing c, its name finds c and every other name finds what it found before |
| Registry.PutNames | services/mcp_manager.py:6-7 | storing adds exactly c's name, and adds an entry only when the name is new |
| Registry.PutValid | services/mcp_manager.py:6-7 | storing keeps one entry per name |
| Registry.RegisterThenGet | services/mcp_manager.py:6-10 | after register(c), get(c.name) is c, replacing any earlier one; other names are unchanged; the count grows only for a new name |
| Registry.RegisterAllNames | services/mcp_manager.py:6-13 | after registering a list, all() has distinct names that are exactly the names registered |
| Registry.RegisterAllCount | services/mcp_manager.py:12-13 | all() holds exactly one connector per distinct registered name |
| Registry.RegisterAllLastWins | services/mcp_manager.py:6-10 | after registering a list, get(n) is the connector registered last under n |
| Registry.UniqueNamesCard | services/mcp_manager.py:12-13 | connectors with distinct names have as many names as entries |
| Requests.LStrip | camphouse_mcp/tools/requests.py:25 | the result is a suffix that does not start with `/`, and only slashes were removed |
| Requests.RStrip | camphouse_mcp/tools/requests.py:24 | the result is a prefix that does not end with `/`, and only slashes were removed |
| Requests.UrlSpec | camphouse_mcp/tools/requests.py:24-25 | the URL is the base, one `/`, and the endpoint without leading slashes; extra leading slashes never change it |
| Requests.LStripSlashes | camphouse_mcp/tools/requests.py:25 | stripping is unaffected by any number of extra leading slashes |
| Requests.BaseHasNoTrailingSlash | camphouse_mcp/tools/requests.py:24 | the configured base URL has no trailing slash to strip |
| Requests.UrlExample | camphouse_mcp/tools/requests.py:24-25 | `/fields/x` and `fields/x` both give `https://api.mediatool.com/fields/x` |
| Requests.BuildRequestSpec | camphouse_mcp/tools/requests.py:24-37 | GET in any letter case sends the payload as query parameters; other methods send the payload's JSON text as body, or none if and only if the payload is falsy; the bearer token, the joined URL and the 60-second timeout are always used |
| Requests.TokenChecked | camphouse_mcp/tools/requests.py:21-22 | a missing or empty token raises the configuration error whatever the transport would do; with a token, the outcome depends only on the answer to the built request |
| Requests.SuccessOutcome | camphouse_mcp/tools/requests.py:40-69 | 204 returns `None`; another non-error status returns the parsed body; a body that does not parse raises the "unexpected error" MediatoolAPIError carrying the decoder's message |
| Requests.HttpErrorPrecedence | camphouse_mcp/tools/requests.py:47-57 | for 4xx and 5xx the message is the body's truthy `message`, else its truthy `error`, else the generic status-and-URL message; a body that is not JSON gives its raw text |
| Requests.FailuresAreApiErrors | camphouse_mcp/tools/requests.py:47-69 | a failure is a MediatoolAPIError if and only if it is not an error status with a JSON body that is not a dict |
| Requests.InterpretApiErrors | camphouse_mcp/tools/requests.py:39-69 | for one transport answer, a failure is a MediatoolAPIError if and only if it is not an error status with a JSON body that is not a dict |
| Requests.GenericMessageExample | camphouse_mcp/tools/requests.py:49 | the generic message carries the status in decimal: 404 reads `Error HTTP: 404 para la URL: ...` |
| Mediatypes.CollectAll | camphouse_mcp/camphouse_connector/mediatypes/main.py:14-18 | the loop keeps one output per ID, in order, stops at the first exception and reports that exception, and issues requests in ID order, up to and including the failing ID |
| Mediatypes.FetchAll | camphouse_mcp/camphouse_connector/mediatypes/main.py:14-18 | with a token, every fetch up to and including the first failing one sends its request, in ID order |
| Mediatypes.FetchNone | camphouse_mcp/camphouse_connector/mediatypes/main.py:14-18 | without a token, nothing is sent and the outcome is the first fetch's failure |
| Mediatypes.GetMediatypesData | camphouse_mcp/camphouse_connector/mediatypes/main.py:6-18 | success if and only if every ID's fetch yields a dict; then one output per ID, the i-th from the i-th fetch; a failure is the first failing ID's, and with a token exactly the requests up to that ID were sent; requests go out in ID order, none for an empty list or a missing token |
| Mediatypes.FetchSends | camphouse_mcp/camphouse_connector/mediatypes/main.py:16 | with a token a fetch is the transport's answer to the built GET request, read against the joined URL; without one it fails with the missing-token error |
| Mediatypes.MediaTypeSpec | camphouse_mcp/camphouse_connector/mediatypes/main.py:17 | a dict answer contributes its `mediaType` entry, or `{}` without one; `None` and non-dict answers raise; request errors propagate |
| Mediatypes.FetchRequestSpec | camphouse_mcp/camphouse_connector/mediatypes/main.py:16 | each fetch is a GET with no parameters of `https://api.mediatool.com/mediatypes/<id>` |
| Mediatypes.EndpointUrl | camphouse_mcp/camphouse_connector/mediatypes/main.py:16 | the URL of a media type is the base URL, `/mediatypes/` and the ID |
| Base.Join | llm/gemini_llm.py:113 | `"\n".join`: an empty list gives `""`, one element gives itself, and the result is at least as long as the first element |
| Base.JoinSnoc | connectors/mcp_base_connector.py:68 | joining one more element adds the separator and that element at the end, so elements appear in order |
| Base.JoinAppend | connectors/mcp_base_connector.py:62 | joining two non-empty lists is joining each and gluing them with one separator |
| Base.MapAll | llm/gemini_llm.py:20-45 | the loop succeeds if and only if every element's step succeeds, and then holds one result per element, in order |
| Base.MapAllFirstFailure | llm/gemini_llm.py:20-45 | a failed loop reports the first failing element's failure; every element before it succeeds |
| Base.MapAllAppend | llm/gemini_llm.py:20-45 | looping over a concatenation loops over each part in turn, and the first failure wins |
| JsonValue.Get | llm/gemini_llm.py:39-40 | `dict.get` is `None` if and only if the key is absent, and otherwise a value stored under the key |

## Left out

- Async/await and concurrency: every call is modelled as sequential.
- The Gemini SDK and the MCP transport are foreign code. They are the
  parameters `generate`, `followUp`, `execute` and `generateWithTools`.
- The three-message follow-up prompt (user query, model call, function
  response) lives inside the `followUp` parameter. The parameter receives the
  query, the call and the tool result or text.
- The `tool_config` argument (mode AUTO) passed to the model is not modelled.
- `GeminiLLM.__init__`, `ChatService.__init__`, `genai.configure` and the
  model name default are configuration read from the environment.
- `connectors/ga4_connector.py` and `connectors/camphouse_connector.py` are
  credential and connection plumbing.
- `main.py`, `camphouse_mcp/coordinator.py` and `camphouse_mcp/server.py` are
  UI and server bootstrap.
- The fields and campaigns endpoint wrappers are one-line calls of
  `make_request`. Their URLs are covered by `Requests.UrlSpec`.
- The organizations wrapper calls `mcp.get_organization()`, which is server
  code and not part of this model.
- `connectors/connector_interface.py` and `llm/base.py` are abstract
  interfaces without behaviour.
- Logging in requests.py is not modelled.
- `str()` and `repr` of arbitrary Python objects are the abstract `show`.
- JSON numbers are integers only. Floats and their truthiness are not
  modelled.
- `method.upper()` is modelled for ASCII letters only.
- `inputSchema` is a dict when present; other values of that attribute are
  not modelled.
- `dict(fc.args)` is the call's argument list as given.
- `hasattr(response, "candidates")` is folded into "no candidates".
- A list item whose `text` attribute is `None`, which makes `"\n".join` raise
  in `ChatService`, is not modelled.
- An exception raised by `str()` itself is not modelled.
- The `@mcp.tool` registration of `get_mediatypes_data` is server plumbing.
- The `ImportError` from the missing `clean_schema_for_gemini` is not
  modelled. `GeminiCatalog` uses `clean_schema` in its place.
- GeminiQuery.ProcessQueryNeverRaises: it says nothing about conversion
  errors. The catalog is built outside the `try`, so those do raise; see
  `GeminiQuery.Catalog`.
