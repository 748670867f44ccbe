/** `get_mediatypes_data` of camphouse_mcp/camphouse_connector/mediatypes/main.py:
    one GET of `mediatypes/<id>` per ID, in order, each answer reduced to its
    `mediaType` entry. */
module Mediatypes {
  import opened Base
  import opened JsonValue
  import opened Requests

  /** Everything `make_request` depends on besides its arguments: the token and
      the stand-ins for `json.dumps`, `str()` and the HTTP library. */
  datatype Client = Client(token: Option<string>, dumps: Json -> string, show: Json -> string,
                           send: HttpRequest -> Transport)

  /** The endpoint of one media type. */
  function Endpoint(id: string): string {
    "mediatypes/" + id
  }

  /** `make_request(f"mediatypes/{mt_id}", method='GET')`. */
  function Fetch(c: Client, id: string): Result<Option<Json>, Raised> {
    MakeRequest(c.token, Endpoint(id), None, "GET", c.dumps, c.show, c.send)
  }

  /** The request that fetch hands to the HTTP library, when the token lets it
      get that far. */
  function FetchRequest(c: Client, id: string): HttpRequest
    requires c.token.Some?
  {
    BuildRequest(c.token.value, Endpoint(id), None, "GET", c.dumps)
  }

  /** `mt_details.get('mediaType', {})`: a dict answer gives its `mediaType`
      entry or `{}`; `None` (a 204) and any other JSON value have no `get`. */
  function MediaType(r: Result<Option<Json>, Raised>): Result<Json, Raised> {
    match r
    case Failure(e) => Failure(e)
    case Success(None) => Failure(AttributeError("'NoneType' object has no attribute 'get'"))
    case Success(Some(JObj(fs))) => Success(Get(fs, "mediaType").GetOr(JObj([])))
    case Success(Some(other)) => Failure(AttributeError("'" + TypeName(other) + "' object has no attribute 'get'"))
  }

  /** Every ID's step sends a request. */
  predicate IssuesAll(ids: seq<string>, issue: string -> Option<HttpRequest>) {
    forall k :: 0 <= k < |ids| ==> issue(ids[k]).Some?
  }

  /** The loop of `get_mediatypes_data`, over any per-ID step: the outputs in
      order, stopping at the first exception, and the requests issued on the
      way (`issue(id)` is `None` when an ID's step sends nothing). */
  method CollectAll(ids: seq<string>, step: string -> Result<Json, Raised>, issue: string -> Option<HttpRequest>)
    returns (r: Result<seq<Json>, Raised>, sent: seq<HttpRequest>)
    ensures r.Success? <==> forall i :: 0 <= i < |ids| ==> step(ids[i]).Success?
    ensures r.Success? ==> |r.value| == |ids| && forall i :: 0 <= i < |ids| ==> r.value[i] == step(ids[i]).value
    ensures r.Failure? ==> exists i :: 0 <= i < |ids| && step(ids[i]) == Failure(r.error)
                                      && (forall j :: 0 <= j < i ==> step(ids[j]).Success?)
                                      && (IssuesAll(ids, issue) ==> |sent| == i + 1)
    ensures |sent| <= |ids|
    ensures IssuesAll(ids, issue) ==> forall i :: 0 <= i < |sent| ==> sent[i] == issue(ids[i]).value
    ensures IssuesAll(ids, issue) && r.Success? ==> |sent| == |ids|
    ensures (forall i :: 0 <= i < |ids| ==> issue(ids[i]).None?) ==> sent == []
  {
    var out: seq<Json> := [];
    sent := [];
    for k := 0 to |ids|
      invariant |out| == k
      invariant forall i :: 0 <= i < k ==> step(ids[i]).Success? && out[i] == step(ids[i]).value
      invariant |sent| <= k
      invariant IssuesAll(ids, issue) ==>
        |sent| == k && forall i :: 0 <= i < k ==> sent[i] == issue(ids[i]).value
      invariant (forall i :: 0 <= i < |ids| ==> issue(ids[i]).None?) ==> sent == []
    {
      var req := issue(ids[k]);
      if req.Some? {
        sent := sent + [req.value];
      }
      var m := step(ids[k]);
      if m.Failure? {
        return Failure(m.error), sent;
      }
      out := out + [m.value];
    }
    return Success(out), sent;
  }

  /** Whether the token lets a fetch reach the HTTP library. */
  predicate HasToken(c: Client) {
    c.token.Some? && c.token.value != ""
  }

  /** The loop of `get_mediatypes_data` when a token is set: every fetch up to
      and including the first failing one sends its request. */
  method FetchAll(c: Client, ids: seq<string>) returns (r: Result<seq<Json>, Raised>, sent: seq<HttpRequest>)
    requires HasToken(c)
    ensures r.Success? <==> forall i :: 0 <= i < |ids| ==> MediaType(Fetch(c, ids[i])).Success?
    ensures r.Success? ==> |r.value| == |ids| && |sent| == |ids|
    ensures r.Success? ==> forall i :: 0 <= i < |ids| ==> r.value[i] == MediaType(Fetch(c, ids[i])).value
    ensures r.Failure? ==> exists i :: 0 <= i < |ids| && MediaType(Fetch(c, ids[i])) == Failure(r.error)
                                      && (forall j :: 0 <= j < i ==> MediaType(Fetch(c, ids[j])).Success?)
                                      && |sent| == i + 1
    ensures |sent| <= |ids|
    ensures forall i :: 0 <= i < |sent| ==> sent[i] == FetchRequest(c, ids[i])
  {
    var step := (id: string) => MediaType(Fetch(c, id));
    var issue := (id: string) => Some(FetchRequest(c, id));
    assert IssuesAll(ids, issue);
    r, sent := CollectAll(ids, step, issue);
    forall i | 0 <= i < |sent|
      ensures sent[i] == FetchRequest(c, ids[i])
    {
      assert sent[i] == issue(ids[i]).value;
    }
    if r.Failure? {
      var i :| 0 <= i < |ids| && step(ids[i]) == Failure(r.error)
               && (forall j :: 0 <= j < i ==> step(ids[j]).Success?)
               && |sent| == i + 1;
    }
  }

  /** The loop of `get_mediatypes_data` without a token: no fetch sends
      anything. */
  method FetchNone(c: Client, ids: seq<string>) returns (r: Result<seq<Json>, Raised>, sent: seq<HttpRequest>)
    requires !HasToken(c)
    ensures r.Success? <==> forall i :: 0 <= i < |ids| ==> MediaType(Fetch(c, ids[i])).Success?
    ensures r.Success? ==> |r.value| == |ids|
    ensures r.Success? ==> forall i :: 0 <= i < |ids| ==> r.value[i] == MediaType(Fetch(c, ids[i])).value
    ensures r.Failure? ==> exists i :: 0 <= i < |ids| && MediaType(Fetch(c, ids[i])) == Failure(r.error)
                                      && (forall j :: 0 <= j < i ==> MediaType(Fetch(c, ids[j])).Success?)
    ensures sent == []
  {
    var step := (id: string) => MediaType(Fetch(c, id));
    r, sent := CollectAll(ids, step, (id: string) => None);
  }

  /** `get_mediatypes_data(mediatype_ids)`. Besides the outcome, `sent` lists the
      requests handed to the HTTP library, in order. */
  method GetMediatypesData(c: Client, ids: seq<string>) returns (r: Result<seq<Json>, Raised>, sent: seq<HttpRequest>)
    ensures r.Success? <==> forall i :: 0 <= i < |ids| ==> MediaType(Fetch(c, ids[i])).Success?
    ensures r.Success? ==> |r.value| == |ids|
    ensures r.Success? ==> forall i :: 0 <= i < |ids| ==> r.value[i] == MediaType(Fetch(c, ids[i])).value
    ensures r.Failure? ==> exists i :: 0 <= i < |ids| && MediaType(Fetch(c, ids[i])) == Failure(r.error)
                                      && (forall j :: 0 <= j < i ==> MediaType(Fetch(c, ids[j])).Success?)
                                      && (HasToken(c) ==> |sent| == i + 1)
    ensures |sent| <= |ids|
    ensures HasToken(c) ==> forall i :: 0 <= i < |sent| ==> sent[i] == FetchRequest(c, ids[i])
    ensures HasToken(c) && r.Success? ==> |sent| == |ids|
    ensures !HasToken(c) ==> sent == []
  {
    if HasToken(c) {
      r, sent := FetchAll(c, ids);
    } else {
      r, sent := FetchNone(c, ids);
    }
  }

  /** One answer: a dict without `mediaType` contributes `{}`, one with it
      contributes that entry unchanged; a 204 or a non-dict answer raises, and
      an error of the request propagates as it is. */
  lemma MediaTypeSpec(r: Result<Option<Json>, Raised>)
    ensures r.Success? && r.value.Some? && r.value.value.JObj? && "mediaType" !in Keys(r.value.value.fields) ==>
      MediaType(r) == Success(JObj([]))
    ensures r.Success? && r.value.Some? && r.value.value.JObj? && "mediaType" in Keys(r.value.value.fields) ==>
      MediaType(r).Success? && Some(MediaType(r).value) == Get(r.value.value.fields, "mediaType")
    ensures MediaType(r).Success? <==> r.Success? && r.value.Some? && r.value.value.JObj?
    ensures r.Failure? ==> MediaType(r) == Failure(r.error)
  {
  }

  /** Each fetch asks for the joined URL of `mediatypes/<id>`, as a GET with no
      query parameters. */
  lemma FetchRequestSpec(c: Client, id: string)
    requires c.token.Some?
    ensures FetchRequest(c, id).GetRequest?
    ensures FetchRequest(c, id).params.None?
    ensures FetchRequest(c, id).url == BaseUrl + "/mediatypes/" + id
  {
    UpperGet();
    EndpointUrl(id);
  }

  /** The URL of one media type: the endpoint has no leading slash to strip. */
  lemma EndpointUrl(id: string)
    ensures Url(Endpoint(id)) == BaseUrl + "/mediatypes/" + id
  {
    BaseHasNoTrailingSlash();
    var e := Endpoint(id);
    assert e[0] == 'm';
    assert LStrip(e) == e;
    assert Url(e) == BaseUrl + "/" + e;
    assert BaseUrl + "/" + ("mediatypes/" + id) == BaseUrl + "/mediatypes/" + id;
  }

  /** With a token, a fetch is the transport's answer to `FetchRequest`, read by
      `Interpret` against the joined URL; without one, it fails before any
      request, whatever the transport would answer. */
  lemma FetchSends(c: Client, id: string)
    ensures HasToken(c) ==> Fetch(c, id) == Interpret(Url(Endpoint(id)), c.send(FetchRequest(c, id)), c.show)
    ensures !HasToken(c) ==> Fetch(c, id) == Failure(MediatoolApiError(MissingTokenMessage))
  {
  }

  lemma UpperGet()
    ensures Upper("GET") == "GET"
  {
  }
}
