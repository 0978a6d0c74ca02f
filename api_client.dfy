/**
 * The API client: how `apiRequest` turns a parsed reply into either the reply
 * or a failure message, and which method and endpoint each `crud` helper
 * requests. The `fetch` itself, the base URL and the headers are not modelled;
 * the parsed reply is a parameter.
 */
module ApiClient {
  import opened Wrappers
  import opened JsValues
  import Text
  import Records

  datatype HttpMethod = GET | POST | PATCH | DELETE

  /** What `apiRequest` asks `fetch` for: a method, an endpoint below the base URL and a JSON body. */
  datatype Request<B> = Request(verb: HttpMethod, endpoint: string, body: Option<B>)

  const DefaultFailure := "API request failed"

  /**
   * A reply `apiRequest` can read without throwing: not null or undefined
   * (reading `success` off either would throw a TypeError), and when its
   * `error` is a list, a list without null entries (reading `message` would throw).
   */
  predicate IsEnvelope(reply: JsValue)
  {
    !Nullish(reply) &&
    (Member(reply, "error").Arr? ==> forall i :: 0 <= i < |Member(reply, "error").items| ==> !Nullish(Member(reply, "error").items[i]))
  }

  /** `errors.map(e => e.message)`. */
  function ErrorMessages(errors: seq<JsValue>): (ms: seq<JsValue>)
    ensures |ms| == |errors|
  {
    seq(|errors|, i requires 0 <= i < |errors| => Member(errors[i], "message"))
  }

  /**
   * The tail of `apiRequest`: a reply whose `success` is exactly `false`
   * becomes the message of the thrown Error; any other reply is returned.
   */
  function Settle(reply: JsValue): (r: Result<JsValue, string>)
    requires IsEnvelope(reply)
    ensures r.Failure? <==> Member(reply, "success") == Bool(false)
    ensures r.Success? ==> r.value == reply
  {
    if Member(reply, "success") == Bool(false) then
      var error := Member(reply, "error");
      Failure(
        if error.Arr? then JoinValues(ErrorMessages(error.items), ", ")
        else if Truthy(error) then ToText(error)
        else DefaultFailure)
    else
      Success(reply)
  }

  /**
   * When `error` is not a list, the failure message is the error's text when
   * it is truthy and the fixed fallback otherwise; either way it is never empty.
   */
  lemma SettleSingleError(reply: JsValue)
    requires IsEnvelope(reply) && Member(reply, "success") == Bool(false)
    requires !Member(reply, "error").Arr?
    ensures Settle(reply).Failure?
    ensures Truthy(Member(reply, "error")) ==> Settle(reply).error == ToText(Member(reply, "error"))
    ensures !Truthy(Member(reply, "error")) ==> Settle(reply).error == DefaultFailure
    ensures Settle(reply).error != ""
  {
    var error := Member(reply, "error");
    if Truthy(error) { TruthyTextNonEmpty(error); }
  }

  /**
   * When `error` is a list of `{message}` objects with string messages, the
   * failure message is those messages joined by ", " in order; an empty list
   * gives the empty message.
   */
  lemma SettleErrorList(reply: JsValue, messages: seq<string>)
    requires IsEnvelope(reply) && Member(reply, "success") == Bool(false)
    requires Member(reply, "error").Arr? && |Member(reply, "error").items| == |messages|
    requires forall i :: 0 <= i < |messages| ==>
      Member(Member(reply, "error").items[i], "message") == Str(messages[i])
    ensures Settle(reply) == Failure(Text.Join(messages, ", "))
  {
    var ms := ErrorMessages(Member(reply, "error").items);
    var pieces := seq(|ms|, i requires 0 <= i < |ms| => if Nullish(ms[i]) then "" else ToText(ms[i]));
    assert pieces == messages;
  }

  /** `new URLSearchParams(pairs).toString()`, with `enc` the form-encoding of a single name or value. */
  function QueryString(params: Records.Record<string>, enc: string -> string): (q: string)
    ensures |params| == 0 <==> q == ""
    ensures |params| > 0 ==>
      var first := enc(params[0].0) + "=" + enc(params[0].1);
      |q| >= |first| && q[..|first|] == first
  {
    Text.Join(QueryPairs(params, enc), "&")
  }

  /** The `name=value` pieces of a query string, one per pair, in insertion order. */
  function QueryPairs(params: Records.Record<string>, enc: string -> string): (pairs: seq<string>)
    ensures |pairs| == |params|
    ensures forall i :: 0 <= i < |params| ==> pairs[i] == enc(params[i].0) + "=" + enc(params[i].1)
    ensures (forall s :: '=' !in enc(s)) ==>
      forall i :: 0 <= i < |params| ==> Text.Split(pairs[i], '=') == [enc(params[i].0), enc(params[i].1)]
  {
    PairsSplit(params, enc);
    seq(|params|, i requires 0 <= i < |params| => enc(params[i].0) + "=" + enc(params[i].1))
  }

  /** A `name=value` piece of encoded text splits on '=' back into the name and the value. */
  lemma PairsSplit(params: Records.Record<string>, enc: string -> string)
    ensures (forall s :: '=' !in enc(s)) ==> forall i :: 0 <= i < |params| ==>
      Text.Split(enc(params[i].0) + "=" + enc(params[i].1), '=') == [enc(params[i].0), enc(params[i].1)]
  {
    if forall s :: '=' !in enc(s) {
      forall i | 0 <= i < |params|
        ensures Text.Split(enc(params[i].0) + "=" + enc(params[i].1), '=') == [enc(params[i].0), enc(params[i].1)]
      {
        var name, value := enc(params[i].0), enc(params[i].1);
        Text.SplitAround(name, value, '=');
        Text.SplitNoSeparator(name, '=');
        Text.SplitNoSeparator(value, '=');
        assert name + "=" + value == name + ['='] + value;
      }
    }
  }

  /** Each pair of the query string splits back into the encoded name and value, in insertion order. */
  lemma QueryStringRoundTrip(params: Records.Record<string>, enc: string -> string)
    requires |params| > 0
    requires forall s :: '&' !in enc(s) && '=' !in enc(s)
    ensures |Text.Split(QueryString(params, enc), '&')| == |params|
    ensures forall i :: 0 <= i < |params| ==>
      Text.Split(Text.Split(QueryString(params, enc), '&')[i], '=') == [enc(params[i].0), enc(params[i].1)]
  {
    var pairs := QueryPairs(params, enc);
    Text.SplitJoin(pairs, '&');
  }

  function CollectionPath(model: string): string
  {
    "/" + model
  }

  function ItemPath(model: string, id: JsValue): string
  {
    "/" + model + "/" + ToText(id)
  }

  /** `crud.getAll`: no params object means no '?'; any params object, even an empty one, adds '?' and its query. */
  function GetAll(model: string, params: Option<Records.Record<string>>, enc: string -> string): (r: Request<JsValue>)
    ensures r.verb == GET && r.body == None
    ensures |r.endpoint| > |model| && r.endpoint[..|model| + 1] == CollectionPath(model)
    ensures params.None? ==> |r.endpoint| == |model| + 1
    ensures params.Some? ==> r.endpoint[|model| + 1..] == "?" + QueryString(params.value, enc)
    ensures '?' !in model && (forall s :: '?' !in enc(s)) ==>
      (params.None? ==> Text.Split(r.endpoint, '?') == [CollectionPath(model)]) &&
      (params.Some? ==> Text.Split(r.endpoint, '?') == [CollectionPath(model), QueryString(params.value, enc)])
  {
    PathQuerySplit(model, params, enc);
    match params
    case None => Request(GET, CollectionPath(model), None)
    case Some(p) => Request(GET, CollectionPath(model) + "?" + QueryString(p, enc), None)
  }

  /** `crud.getById`. */
  function GetById(model: string, id: JsValue): (r: Request<JsValue>)
    ensures r.verb == GET && r.body == None
    ensures |r.endpoint| > |model| + 1 && r.endpoint[..|model| + 1] == CollectionPath(model)
    ensures r.endpoint[|model| + 1..] == "/" + ToText(id)
    ensures '/' !in model && '/' !in ToText(id) ==> Text.Split(r.endpoint, '/') == ["", model, ToText(id)]
  {
    if '/' !in model && '/' !in ToText(id) then
      ItemSegments(model, id);
      Request(GET, ItemPath(model, id), None)
    else
      Request(GET, ItemPath(model, id), None)
  }

  /** `crud.create`. */
  function Create<B>(model: string, data: B): (r: Request<B>)
    ensures r.verb == POST && r.body == Some(data)
    ensures r.endpoint == CollectionPath(model)
    ensures '/' !in model ==> Text.Split(r.endpoint, '/') == ["", model]
  {
    if '/' !in model then
      CollectionSegments(model);
      Request(POST, CollectionPath(model), Some(data))
    else
      Request(POST, CollectionPath(model), Some(data))
  }

  /** `crud.update`. */
  function Update<B>(model: string, id: JsValue, data: B): (r: Request<B>)
    ensures r.verb == PATCH && r.body == Some(data)
    ensures |r.endpoint| > |model| + 1 && r.endpoint[..|model| + 1] == CollectionPath(model)
    ensures r.endpoint[|model| + 1..] == "/" + ToText(id)
    ensures '/' !in model && '/' !in ToText(id) ==> Text.Split(r.endpoint, '/') == ["", model, ToText(id)]
  {
    if '/' !in model && '/' !in ToText(id) then
      ItemSegments(model, id);
      Request(PATCH, ItemPath(model, id), Some(data))
    else
      Request(PATCH, ItemPath(model, id), Some(data))
  }

  /** `crud.delete`. */
  function DeleteById(model: string, id: JsValue): (r: Request<JsValue>)
    ensures r.verb == DELETE && r.body == None
    ensures |r.endpoint| > |model| + 1 && r.endpoint[..|model| + 1] == CollectionPath(model)
    ensures r.endpoint[|model| + 1..] == "/" + ToText(id)
    ensures '/' !in model && '/' !in ToText(id) ==> Text.Split(r.endpoint, '/') == ["", model, ToText(id)]
  {
    if '/' !in model && '/' !in ToText(id) then
      ItemSegments(model, id);
      Request(DELETE, ItemPath(model, id), None)
    else
      Request(DELETE, ItemPath(model, id), None)
  }

  /** `/model`, and `/model?query` when a params object is given, split on '?' at the one '?' added. */
  lemma PathQuerySplit(model: string, params: Option<Records.Record<string>>, enc: string -> string)
    ensures '?' !in model && (forall s :: '?' !in enc(s)) ==>
      Text.Split(CollectionPath(model), '?') == [CollectionPath(model)] &&
      (params.Some? ==>
        Text.Split(CollectionPath(model) + "?" + QueryString(params.value, enc), '?') ==
        [CollectionPath(model), QueryString(params.value, enc)])
  {
    if '?' !in model && (forall s :: '?' !in enc(s)) {
      var path := CollectionPath(model);
      assert '?' !in path by { assert path == ['/'] + model; }
      Text.SplitNoSeparator(path, '?');
      if params.Some? {
        var q := QueryString(params.value, enc);
        QueryHasNo(params.value, enc, '?');
        Text.SplitNoSeparator(q, '?');
        Text.SplitAround(path, q, '?');
        assert path + "?" + q == path + ['?'] + q;
      }
    }
  }

  /**
   * The list request has a '?' exactly when a params object was passed, and
   * what follows it is the query string of that object.
   */
  lemma GetAllEndpoint(model: string, params: Option<Records.Record<string>>, enc: string -> string)
    requires '?' !in model && '/' !in model
    requires forall s :: '?' !in enc(s)
    ensures GetAll(model, params, enc).verb == GET && GetAll(model, params, enc).body == None
    ensures params.None? ==> Text.Split(GetAll(model, params, enc).endpoint, '?') == [CollectionPath(model)]
    ensures params.Some? ==>
      Text.Split(GetAll(model, params, enc).endpoint, '?') == [CollectionPath(model), QueryString(params.value, enc)]
    ensures Text.Split(CollectionPath(model), '/') == ["", model]
  {
    CollectionSegments(model);
  }

  /** A query string holds a character only if the encoder can produce it, or it is '=' or '&'. */
  lemma QueryHasNo(params: Records.Record<string>, enc: string -> string, c: char)
    requires c != '&' && c != '='
    requires forall s :: c !in enc(s)
    ensures c !in QueryString(params, enc)
  {
    var pairs := QueryPairs(params, enc);
    JoinHasNo(pairs, "&", c);
  }

  lemma {:induction false} JoinHasNo(xs: seq<string>, sep: string, c: char)
    requires c !in sep
    requires forall i :: 0 <= i < |xs| ==> c !in xs[i]
    ensures c !in Text.Join(xs, sep)
    decreases |xs|
  {
    if |xs| > 1 {
      JoinHasNo(xs[1..], sep, c);
    }
  }

  /**
   * Creating posts the data to `/{model}`; reading, updating and deleting one
   * item target `/{model}/{id}` with GET, PATCH (carrying the data) and DELETE,
   * and the endpoint splits back into the model and the id's text.
   */
  lemma ItemRequests<B>(model: string, id: JsValue, data: B)
    requires '/' !in model && '/' !in ToText(id)
    ensures Create(model, data).verb == POST && Create(model, data).body == Some(data)
    ensures Text.Split(Create(model, data).endpoint, '/') == ["", model]
    ensures GetById(model, id).verb == GET && GetById(model, id).body == None
    ensures Update(model, id, data).verb == PATCH && Update(model, id, data).body == Some(data)
    ensures DeleteById(model, id).verb == DELETE && DeleteById(model, id).body == None
    ensures GetById(model, id).endpoint == Update(model, id, data).endpoint == DeleteById(model, id).endpoint
    ensures Text.Split(ItemPath(model, id), '/') == ["", model, ToText(id)]
  {
    CollectionSegments(model);
    ItemSegments(model, id);
  }

  /** `/model` splits on '/' into an empty piece and the model name. */
  lemma CollectionSegments(model: string)
    requires '/' !in model
    ensures Text.Split(CollectionPath(model), '/') == ["", model]
  {
    Text.SplitAround("", model, '/');
    Text.SplitNoSeparator(model, '/');
    assert "" + ['/'] + model == CollectionPath(model);
  }

  /** `/model/id` splits on '/' into an empty piece, the model name and the id's text. */
  lemma ItemSegments(model: string, id: JsValue)
    requires '/' !in model && '/' !in ToText(id)
    ensures Text.Split(ItemPath(model, id), '/') == ["", model, ToText(id)]
  {
    CollectionSegments(model);
    Text.SplitAround(CollectionPath(model), ToText(id), '/');
    Text.SplitNoSeparator(ToText(id), '/');
    assert CollectionPath(model) + ['/'] + ToText(id) == ItemPath(model, id);
  }
}
