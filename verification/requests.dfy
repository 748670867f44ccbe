/** `make_request` of camphouse_mcp/tools/requests.py: the decisions around one
    call to the Mediatool REST API.

    The token is a parameter (it is read from the environment once, at import).
    The HTTP library is the parameter `send`, which maps the request to what
    came back: a status, a body that did or did not parse as JSON, the raw text
    and the URL requests actually used; or a connection failure; or any other
    requests failure. `json.dumps` is the parameter `dumps`, and `str()` of a
    JSON value that is not a string is the parameter `show`. */
module Requests {
  import opened Base
  import opened JsonValue

  const BaseUrl: string := "https://api.mediatool.com"
  const Timeout: nat := 60

  /** A request header. */
  datatype Header = Header(name: string, value: string)

  /** What is handed to requests: `requests.get(url, headers, params, timeout)`,
      or `requests.request(method, url, data, headers, timeout)`. */
  datatype HttpRequest =
    | GetRequest(url: string, headers: seq<Header>, params: Option<Json>, timeout: nat)
    | SendRequest(verb: string, url: string, data: Option<string>, headers: seq<Header>, timeout: nat)

  /** `response.json()`: the parsed body, or the decode error's message. */
  datatype Body = Parsed(value: Json) | NotJson(detail: string)

  /** What the HTTP library came back with. */
  datatype Transport =
    | Answered(status: nat, body: Body, text: string, requestUrl: string)
    | ConnectionFailed
    | OtherFailure(detail: string)

  /** The exception `make_request` raises: `MediatoolAPIError(message)`, or the
      `AttributeError` of `.get` on an error body that is JSON but not a dict. */
  datatype Raised = MediatoolApiError(message: string) | AttributeError(message: string)

  const MissingTokenMessage: string := "La variable de entorno CAMPHOUSE_TOKEN_ID no está configurada."

  // ---------------------------------------------------------------------------
  // Building the request
  // ---------------------------------------------------------------------------

  /** `s.lstrip('/')`. */
  function LStrip(s: string): (r: string)
    ensures |r| <= |s| && r == s[|s| - |r|..]
    ensures r == [] || r[0] != '/'
    ensures forall i :: 0 <= i < |s| - |r| ==> s[i] == '/'
    decreases |s|
  {
    if |s| > 0 && s[0] == '/' then LStrip(s[1..]) else s
  }

  /** `s.rstrip('/')`. */
  function RStrip(s: string): (r: string)
    ensures |r| <= |s| && r == s[..|r|]
    ensures r == [] || r[|r| - 1] != '/'
    ensures forall i :: |r| <= i < |s| ==> s[i] == '/'
    decreases |s|
  {
    if |s| > 0 && s[|s| - 1] == '/' then RStrip(s[..|s| - 1]) else s
  }

  /** `f"{api_url}/{endpoint.lstrip('/')}"` with `api_url = MEDIATOOL_URL.rstrip('/')`. */
  function Url(endpoint: string): string {
    RStrip(BaseUrl) + "/" + LStrip(endpoint)
  }

  /** Leading slashes never matter: the URL is the base, exactly one `/`, and
      the endpoint without its leading slashes. */
  lemma UrlSpec(endpoint: string, slashes: nat)
    ensures Url(endpoint) == BaseUrl + "/" + LStrip(endpoint)
    ensures LStrip(endpoint) == [] || LStrip(endpoint)[0] != '/'
    ensures Url(seq(slashes, _ => '/') + endpoint) == Url(endpoint)
  {
    BaseHasNoTrailingSlash();
    LStripSlashes(endpoint, slashes);
  }

  lemma BaseHasNoTrailingSlash()
    ensures RStrip(BaseUrl) == BaseUrl
  {
    assert BaseUrl[|BaseUrl| - 1] == 'm';
  }

  /** The example of the two spellings of one endpoint. */
  lemma UrlExample()
    ensures Url("/fields/x") == Url("fields/x") == BaseUrl + "/fields/x"
  {
    BaseHasNoTrailingSlash();
    var e := "fields/x";
    assert e[0] == 'f';
    assert LStrip(e) == e;
    assert "/fields/x" == ['/'] + e;
    assert LStrip("/fields/x") == LStrip(e);
  }

  /** Stripping is unaffected by extra leading slashes. */
  lemma {:induction false} LStripSlashes(s: string, n: nat)
    ensures LStrip(seq(n, _ => '/') + s) == LStrip(s)
    decreases n
  {
    if n > 0 {
      var t := seq(n, _ => '/') + s;
      assert t[0] == '/';
      assert t[1..] == seq(n - 1, _ => '/') + s;
      LStripSlashes(s, n - 1);
    } else {
      assert seq(n, _ => '/') + s == s;
    }
  }

  /** `str.upper()` on ASCII letters. */
  function Upper(s: string): (r: string)
    ensures |r| == |s|
  {
    seq(|s|, i requires 0 <= i < |s| => if 'a' <= s[i] <= 'z' then (s[i] as int - 32) as char else s[i])
  }

  /** The three headers; the token is sent as a bearer token. */
  function Headers(token: string): seq<Header> {
    [Header("Content-Type", "application/json"), Header("Accept", "application/json"),
     Header("Authorization", "Bearer " + token)]
  }

  /** The payload counts only when truthy (`None`, `{}`, `[]`, `""`, `0` do not). */
  predicate PayloadTruthy(payload: Option<Json>) {
    payload.Some? && Truthy(payload.value)
  }

  /** The request for `make_request(endpoint, payload, method)`. */
  function BuildRequest(token: string, endpoint: string, payload: Option<Json>, verb: string,
                        dumps: Json -> string): HttpRequest
  {
    var url := Url(endpoint);
    if Upper(verb) == "GET" then GetRequest(url, Headers(token), payload, Timeout)
    else SendRequest(verb, url, if PayloadTruthy(payload) then Some(dumps(payload.value)) else None, Headers(token), Timeout)
  }

  /** GET (in any letter case) sends the payload as query parameters; any other
      method sends the JSON text of the payload as body, or no body when the
      payload is falsy. Either way the URL is the joined one, the bearer token is
      in the headers and the timeout is 60 seconds. */
  lemma BuildRequestSpec(token: string, endpoint: string, payload: Option<Json>, verb: string,
                         dumps: Json -> string)
    ensures var req := BuildRequest(token, endpoint, payload, verb, dumps);
      && req.url == Url(endpoint) && req.timeout == 60
      && Header("Authorization", "Bearer " + token) in req.headers
      && (req.GetRequest? <==> Upper(verb) == "GET")
      && (req.GetRequest? ==> req.params == payload)
      && (req.SendRequest? ==> req.verb == verb && (req.data.None? <==> !PayloadTruthy(payload)))
      && (req.SendRequest? && PayloadTruthy(payload) ==> req.data == Some(dumps(payload.value)))
    ensures Upper("get") == "GET" && Upper("Get") == "GET" && Upper("post") != "GET"
  {
    assert Headers(token)[2] == Header("Authorization", "Bearer " + token);
    assert Upper("get") == "GET";
    assert Upper("Get") == "GET";
    assert Upper("post")[0] == 'P';
  }

  // ---------------------------------------------------------------------------
  // Interpreting the answer
  // ---------------------------------------------------------------------------

  /** The decimal text of a status code. */
  function Decimal(n: nat): (r: string)
    ensures |r| > 0
    ensures forall i :: 0 <= i < |r| ==> '0' <= r[i] <= '9'
  {
    if n < 10 then ["0123456789"[n]] else Decimal(n / 10) + ["0123456789"[n % 10]]
  }

  /** `str(msg)` of a JSON value: a string is itself. */
  function Str(j: Json, show: Json -> string): string {
    if j.JStr? then j.s else show(j)
  }

  /** `raise_for_status()` raises for 4xx and 5xx. */
  predicate IsHttpError(status: nat) {
    400 <= status < 600
  }

  function GenericHttpMessage(status: nat, url: string): string {
    "Error HTTP: " + Decimal(status) + " para la URL: " + url
  }

  function ApiMessage(detail: string): string {
    "Error de la API de Mediatool: " + detail
  }

  function UnexpectedMessage(detail: string): string {
    "Mediatool: Ocurrió un error inesperado al conectar con la API: " + detail
  }

  /** `error_details.get('message') or error_details.get('error')`. */
  function MessageOrError(fs: seq<Field>): Option<Json> {
    match Get(fs, "message")
    case Some(m) => if Truthy(m) then Some(m) else Get(fs, "error")
    case None => Get(fs, "error")
  }

  /** The exception raised for an error status. */
  function HttpError(status: nat, body: Body, text: string, requestUrl: string, show: Json -> string): Raised {
    match body
    case NotJson(_) => MediatoolApiError(ApiMessage(text))
    case Parsed(JObj(fs)) =>
      var msg := MessageOrError(fs);
      if msg.Some? && Truthy(msg.value) then MediatoolApiError(ApiMessage(Str(msg.value, show)))
      else MediatoolApiError(GenericHttpMessage(status, requestUrl))
    case Parsed(other) => AttributeError("'" + TypeName(other) + "' object has no attribute 'get'")
  }

  /** The outcome of one request, given the transport's answer. */
  function Interpret(url: string, t: Transport, show: Json -> string): Result<Option<Json>, Raised> {
    match t
    case Answered(status, body, text, requestUrl) =>
      if IsHttpError(status) then Failure(HttpError(status, body, text, requestUrl, show))
      else if status == 204 then Success(None)
      else
        (match body
         case Parsed(j) => Success(Some(j))
         case NotJson(detail) => Failure(MediatoolApiError(UnexpectedMessage(detail))))
    case ConnectionFailed =>
      Failure(MediatoolApiError("Mediatool: No se pudo establecer una conexión con la API en " + url + "."))
    case OtherFailure(detail) =>
      Failure(MediatoolApiError(UnexpectedMessage(detail)))
  }

  /** `make_request(endpoint, payload, method)`: `Success(None)` for `None`,
      `Success(Some(j))` for the parsed body, `Failure` for the exception. */
  function MakeRequest(token: Option<string>, endpoint: string, payload: Option<Json>, verb: string,
                       dumps: Json -> string, show: Json -> string,
                       send: HttpRequest -> Transport): Result<Option<Json>, Raised>
  {
    if token.None? || token.value == "" then Failure(MediatoolApiError(MissingTokenMessage))
    else Interpret(Url(endpoint), send(BuildRequest(token.value, endpoint, payload, verb, dumps)), show)
  }

  /** A missing or empty token fails before any request: the outcome does not
      depend on the transport at all. With a token, the transport is asked
      exactly for the built request. */
  lemma TokenChecked(token: Option<string>, endpoint: string, payload: Option<Json>, verb: string,
                     dumps: Json -> string, show: Json -> string,
                     send1: HttpRequest -> Transport, send2: HttpRequest -> Transport)
    ensures token.None? || token.value == "" ==>
      && MakeRequest(token, endpoint, payload, verb, dumps, show, send1) == Failure(MediatoolApiError(MissingTokenMessage))
      && MakeRequest(token, endpoint, payload, verb, dumps, show, send1) ==
         MakeRequest(token, endpoint, payload, verb, dumps, show, send2)
    ensures token.Some? && token.value != "" &&
            send1(BuildRequest(token.value, endpoint, payload, verb, dumps)) ==
            send2(BuildRequest(token.value, endpoint, payload, verb, dumps)) ==>
      MakeRequest(token, endpoint, payload, verb, dumps, show, send1) ==
      MakeRequest(token, endpoint, payload, verb, dumps, show, send2)
  {
  }

  /** Successful statuses: 204 gives `None` whatever the body; any other
      non-error status gives the parsed body, and a body that does not parse is
      reported as an unexpected error. */
  lemma SuccessOutcome(url: string, status: nat, body: Body, text: string, requestUrl: string, show: Json -> string)
    requires !IsHttpError(status)
    ensures var r := Interpret(url, Answered(status, body, text, requestUrl), show);
      && (status == 204 ==> r == Success(None))
      && (status != 204 && body.Parsed? ==> r == Success(Some(body.value)))
      && (status != 204 && body.NotJson? ==> r == Failure(MediatoolApiError(UnexpectedMessage(body.detail))))
  {
  }

  /** Error statuses, in order of precedence: the body's truthy `message`, else
      its truthy `error`, else the generic status-and-URL message; a body that is
      not JSON gives its raw text. */
  lemma HttpErrorPrecedence(url: string, status: nat, fs: seq<Field>, text: string, requestUrl: string,
                            detail: string, show: Json -> string)
    requires IsHttpError(status)
    ensures var r := Interpret(url, Answered(status, Parsed(JObj(fs)), text, requestUrl), show);
      var m := Get(fs, "message");
      var e := Get(fs, "error");
      && (m.Some? && Truthy(m.value) ==> r == Failure(MediatoolApiError(ApiMessage(Str(m.value, show)))))
      && (!(m.Some? && Truthy(m.value)) && e.Some? && Truthy(e.value) ==>
            r == Failure(MediatoolApiError(ApiMessage(Str(e.value, show)))))
      && (!(m.Some? && Truthy(m.value)) && !(e.Some? && Truthy(e.value)) ==>
            r == Failure(MediatoolApiError(GenericHttpMessage(status, requestUrl))))
    ensures Interpret(url, Answered(status, NotJson(detail), text, requestUrl), show) ==
            Failure(MediatoolApiError(ApiMessage(text)))
  {
  }

  /** Every failure is a `MediatoolAPIError`, with one exception: an error
      status whose body is JSON but not a dict, where `.get` raises
      `AttributeError`. */
  lemma FailuresAreApiErrors(token: Option<string>, endpoint: string, payload: Option<Json>, verb: string,
                             dumps: Json -> string, show: Json -> string, send: HttpRequest -> Transport)
    ensures var r := MakeRequest(token, endpoint, payload, verb, dumps, show, send);
      var t := send(BuildRequest(token.GetOr(""), endpoint, payload, verb, dumps));
      r.Failure? ==>
        (r.error.MediatoolApiError? <==>
           !(token.Some? && token.value != "" && t.Answered? && IsHttpError(t.status)
             && t.body.Parsed? && !t.body.value.JObj?))
  {
    if token.Some? && token.value != "" {
      InterpretApiErrors(Url(endpoint), send(BuildRequest(token.value, endpoint, payload, verb, dumps)), show);
    }
  }

  /** The same, for one transport answer. */
  lemma InterpretApiErrors(url: string, t: Transport, show: Json -> string)
    ensures var r := Interpret(url, t, show);
      r.Failure? ==>
        (r.error.MediatoolApiError? <==> !(t.Answered? && IsHttpError(t.status) && t.body.Parsed? && !t.body.value.JObj?))
  {
  }

  /** The generic message carries the status in decimal: a 404 says `404`. */
  lemma GenericMessageExample(url: string)
    ensures GenericHttpMessage(404, url) == "Error HTTP: 404 para la URL: " + url
  {
    Decimal404();
    assert "Error HTTP: " + "404" == "Error HTTP: 404";
  }

  lemma Decimal404()
    ensures Decimal(404) == "404"
  {
    assert Decimal(404) == Decimal(40) + ['4'];
    assert Decimal(40) == Decimal(4) + ['0'];
    assert Decimal(4) == ['4'];
  }
}
