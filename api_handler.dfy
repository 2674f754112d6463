/**
 * Request shaping of the storefront's REST helper (src/services/apiHandler.js):
 * the `Content-Type` rule and URL of `apiRequest`, the form-data and
 * URL-encoded bodies, the body, method and path each CRUD helper chooses,
 * the error message of a failed response, and the order in which the
 * helpers call `onSuccess`, `onError` and `onFinally`.
 *
 * `fetch` is the parameter `network`, from a request to what came back.
 * `JSON.stringify` is left abstract: a JSON body is the record it encodes.
 * In the URL-encoded body the percent-encoding of names and values is the
 * parameter `encode`.
 */
module Api {
  import opened Common
  import opened Strings

  const BaseUrl := "http://localhost:3000"
  const ContentTypeHeader := "Content-Type"
  const JsonType := "application/json"
  const MultipartType := "multipart/form-data"
  const FormUrlEncodedType := "application/x-www-form-urlencoded"

  /** One own property of an item, its value in the string form `append` gives it. */
  datatype Field = Field(key: string, value: string)

  /** An item as `Object.keys` lists it: its properties in key order. */
  type Record = seq<Field>

  datatype Body =
    | NoBody
    | FormData(entries: seq<Field>)
    | Text(text: string)
    | JsonText(record: Record)

  datatype Request = Request(verb: string, url: string, headers: map<string, string>, body: Body)

  /** A parsed JSON response body; only its string-valued properties are kept. */
  datatype JsonValue = JsonValue(fields: map<string, string>)

  /** A response: `ok`, `status`, and what `response.json()` gives (a rejection is `Err`). */
  datatype Response = Response(ok: bool, status: nat, json: Result<JsonValue, string>)

  /** What `fetch` settles to: a rejection (network failure) or a response. */
  datatype Fetched = NetworkFailure(message: string) | Received(response: Response)

  /** The options `apiRequest` reads, other than `headers`; `NoBody` is the default `null`. */
  datatype RequestOptions = RequestOptions(verb: Option<string>, body: Body, contentType: Option<string>)

  /** `${baseURL}/${endPoint}`. */
  function Url(endPoint: string): (url: string)
    ensures url == BaseUrl + "/" + endPoint
    ensures url[..|BaseUrl| + 1] == BaseUrl + "/" && url[|BaseUrl| + 1..] == endPoint
  {
    BaseUrl + "/" + endPoint
  }

  /** `contentType || 'application/json'`. */
  function ContentTypeOrJson(contentType: Option<string>): string {
    if contentType.None? || contentType.value == "" then JsonType else contentType.value
  }

  /** The headers `apiRequest` sends: for anything but multipart the `Content-Type` is set; all else passes through. */
  function WithContentType(headers: map<string, string>, contentType: Option<string>): (r: map<string, string>)
    ensures contentType != Some(MultipartType) ==>
      ContentTypeHeader in r && r[ContentTypeHeader] == ContentTypeOrJson(contentType)
    ensures contentType == Some(MultipartType) ==> r == headers
    ensures forall k :: k != ContentTypeHeader ==>
      (k in r <==> k in headers) && (k in headers ==> r[k] == headers[k])
  {
    if contentType != Some(MultipartType) then headers[ContentTypeHeader := ContentTypeOrJson(contentType)]
    else headers
  }

  /** `errorData.message || `HTTP Error: ${response.status}``. */
  function ErrorMessage(status: nat, errorData: JsonValue): (m: string)
    ensures "message" in errorData.fields && errorData.fields["message"] != "" ==>
      m == errorData.fields["message"]
    ensures !("message" in errorData.fields && errorData.fields["message"] != "") ==>
      m == "HTTP Error: " + DecimalString(status)
  {
    if "message" in errorData.fields && errorData.fields["message"] != "" then errorData.fields["message"]
    else "HTTP Error: " + DecimalString(status)
  }

  /** The error message is never empty, and without a server message the status reads back from its digits. */
  lemma ErrorMessageStatus(status: nat, errorData: JsonValue)
    ensures ErrorMessage(status, errorData) != ""
    ensures !("message" in errorData.fields && errorData.fields["message"] != "") ==>
      var m := ErrorMessage(status, errorData);
      |m| > 12 && m[..12] == "HTTP Error: " && AllDigits(m[12..]) && DigitsValue(m[12..]) == status &&
      (status > 0 ==> m[12] != '0')
  {
    var d := DecimalString(status);
    DecimalStringValue(status);
    assert ("HTTP Error: " + d)[12..] == d;
  }

  /** What the awaited `apiRequest` yields: the parsed body of an ok response, otherwise the error it throws. */
  function RequestOutcome(fetched: Fetched): (r: Result<JsonValue, string>)
    ensures fetched.NetworkFailure? ==> r == Err(fetched.message)
    ensures fetched.Received? && fetched.response.ok ==> r == fetched.response.json
    ensures fetched.Received? && !fetched.response.ok ==> r.Err?
    ensures fetched.Received? && !fetched.response.ok && fetched.response.json.Ok? ==>
      r == Err(ErrorMessage(fetched.response.status, fetched.response.json.value))
  {
    match fetched
    case NetworkFailure(m) => Err(m)
    case Received(response) =>
      if response.ok then response.json
      else match response.json
        case Err(m) => Err(m)
        case Ok(errorData) => Err(ErrorMessage(response.status, errorData))
  }

  /** A caller's headers object, which `apiRequest` updates in place. */
  class Headers {
    var entries: map<string, string>

    constructor (entries: map<string, string>)
      ensures this.entries == entries
    {
      this.entries := entries;
    }
  }

  /** `apiRequest`: set the `Content-Type` on the caller's headers, send, and turn a non-ok response into an error. */
  method ApiRequest(endPoint: string, options: RequestOptions, headers: Headers, network: Request -> Fetched)
    returns (request: Request, result: Result<JsonValue, string>)
    modifies headers
    ensures headers.entries == WithContentType(old(headers.entries), options.contentType)
    ensures request == Request(options.verb.GetOr("GET"), Url(endPoint), headers.entries, options.body)
    ensures result == RequestOutcome(network(request))
  {
    if options.contentType != Some(MultipartType) {
      headers.entries := headers.entries[ContentTypeHeader := ContentTypeOrJson(options.contentType)];
    }
    request := Request(options.verb.GetOr("GET"), Url(endPoint), headers.entries, options.body);
    var fetched := network(request);
    match fetched {
      case NetworkFailure(m) =>
        result := Err(m);
      case Received(response) =>
        if !response.ok {
          match response.json {
            case Err(m) => result := Err(m);
            case Ok(errorData) => result := Err(ErrorMessage(response.status, errorData));
          }
        } else {
          result := response.json;
        }
    }
  }

  /** `createFormData`: one `append(key, item[key])` per key, in key order. */
  method CreateFormData(item: Record) returns (form: seq<Field>)
    ensures |form| == |item|
    ensures forall k :: 0 <= k < |item| ==> form[k] == item[k]
  {
    form := [];
    var i := 0;
    while i < |item|
      invariant 0 <= i <= |item|
      invariant form == item[..i]
    {
      form := form + [Field(item[i].key, item[i].value)];
      i := i + 1;
    }
  }

  /** `name=value` with both percent-encoded. */
  function PairText(field: Field, encode: string -> string): string {
    encode(field.key) + "=" + encode(field.value)
  }

  /** The `name=value` texts of a list of pairs, in order. */
  function PairTexts(params: seq<Field>, encode: string -> string): (texts: seq<string>)
    ensures |texts| == |params|
    ensures forall i :: 0 <= i < |params| ==> texts[i] == PairText(params[i], encode)
  {
    seq(|params|, i requires 0 <= i < |params| => PairText(params[i], encode))
  }

  /**
   * The application/x-www-form-urlencoded serializer of section 5.2 of the
   * WHATWG URL Standard (`URLSearchParams.toString`): the pairs joined by
   * `&`, with the byte serializer abstracted as `encode`.
   */
  function UrlEncoded(params: seq<Field>, encode: string -> string): string {
    Join(PairTexts(params, encode), '&')
  }

  /** `createUrlEncodedBody`: append every key's pair in key order, then serialise. */
  method CreateUrlEncodedBody(item: Record, encode: string -> string) returns (body: string)
    ensures body == UrlEncoded(item, encode)
  {
    var params: seq<Field> := [];
    var i := 0;
    while i < |item|
      invariant 0 <= i <= |item|
      invariant params == item[..i]
    {
      params := params + [Field(item[i].key, item[i].value)];
      i := i + 1;
    }
    assert params == item;
    body := Join(PairTexts(params, encode), '&');
  }

  /**
   * The serialized body holds exactly one `name=value` per key, in key order,
   * when the encoder never writes `&` or `=` (the WHATWG byte serializer
   * percent-encodes both).
   */
  lemma UrlEncodedPairs(item: Record, encode: string -> string)
    requires |item| >= 1
    requires forall s :: '&' !in encode(s) && '=' !in encode(s)
    ensures Split(UrlEncoded(item, encode), '&') == PairTexts(item, encode)
    ensures forall i :: 0 <= i < |item| ==>
      Split(Split(UrlEncoded(item, encode), '&')[i], '=') == [encode(item[i].key), encode(item[i].value)]
  {
    var texts := PairTexts(item, encode);
    forall i | 0 <= i < |texts| ensures '&' !in texts[i] {
      assert texts[i] == encode(item[i].key) + "=" + encode(item[i].value);
    }
    SplitJoin(texts, '&');
    forall i | 0 <= i < |item|
      ensures Split(texts[i], '=') == [encode(item[i].key), encode(item[i].value)]
    {
      var parts := [encode(item[i].key), encode(item[i].value)];
      assert Join(parts, '=') == texts[i];
      SplitJoin(parts, '=');
    }
  }

  /** The body `createItem` and `updateItem` send for a content type. */
  function BodyFor(item: Record, contentType: string, encode: string -> string): (body: Body)
    ensures body.FormData? <==> contentType == MultipartType
    ensures body.Text? <==> contentType == FormUrlEncodedType
    ensures body.JsonText? <==> contentType != MultipartType && contentType != FormUrlEncodedType
    ensures body.FormData? ==> body.entries == item
    ensures body.Text? ==> body.text == UrlEncoded(item, encode)
    ensures body.JsonText? ==> body.record == item
  {
    if contentType == MultipartType then FormData(item)
    else if contentType == FormUrlEncodedType then Text(UrlEncoded(item, encode))
    else JsonText(item)
  }

  /** The body selection shared by `createItem` and `updateItem`. */
  method EncodeBody(item: Record, contentType: string, encode: string -> string) returns (body: Body)
    ensures body == BodyFor(item, contentType, encode)
  {
    if contentType == MultipartType {
      var form := CreateFormData(item);
      assert form == item;
      body := FormData(form);
    } else if contentType == FormUrlEncodedType {
      var text := CreateUrlEncodedBody(item, encode);
      body := Text(text);
    } else {
      body := JsonText(item);
    }
  }

  /** `${item.id}`: the `id` property's text, `undefined` when there is none. */
  function IdText(item: Record): string {
    if |item| == 0 then "undefined"
    else if item[0].key == "id" then item[0].value
    else IdText(item[1..])
  }

  /** A callback option: not a function (skipped), a function that returns, or one that throws. */
  datatype Callback = NotAFunction | Returns | Throws(message: string)

  datatype Handlers = Handlers(onSuccess: Callback, onError: Callback, onFinally: Callback)

  datatype Event = SuccessCalled(data: JsonValue) | ErrorCalled(message: string) | FinallyCalled

  /** Two events are calls of the same callback. */
  predicate SameCallback(a: Event, b: Event) {
    (a.SuccessCalled? && b.SuccessCalled?) || (a.ErrorCalled? && b.ErrorCalled?) || (a == FinallyCalled && b == FinallyCalled)
  }

  /** The callbacks made, in order, and how the helper's promise settles (`None`: it resolves). */
  datatype Settled = Settled(events: seq<Event>, rejection: Option<string>)

  /** The calls a block made and the exception it ended with, if any. */
  datatype Block = Block(events: seq<Event>, thrown: Option<string>)

  /** The `try` block after the request: `onSuccess(data)`; an exception it throws goes to `catch`. */
  function TryBlock(outcome: Result<JsonValue, string>, onSuccess: Callback): (b: Block)
    ensures FinallyCalled !in b.events
    ensures b.events == if outcome.Ok? && onSuccess != NotAFunction then [SuccessCalled(outcome.value)] else []
    ensures b.thrown == if outcome.Err? then Some(outcome.error)
                        else if onSuccess.Throws? then Some(onSuccess.message) else None
  {
    match outcome
    case Err(m) => Block([], Some(m))
    case Ok(data) =>
      match onSuccess
      case NotAFunction => Block([], None)
      case Returns => Block([SuccessCalled(data)], None)
      case Throws(m) => Block([SuccessCalled(data)], Some(m))
  }

  /** The `catch` block: `onError(error)`; the error is swallowed unless `onError` throws. */
  function CatchBlock(caught: Option<string>, onError: Callback): (b: Block)
    ensures FinallyCalled !in b.events
    ensures b.events == if caught.Some? && onError != NotAFunction then [ErrorCalled(caught.value)] else []
    ensures b.thrown == if caught.Some? && onError.Throws? then Some(onError.message) else None
  {
    match caught
    case None => Block([], None)
    case Some(e) =>
      match onError
      case NotAFunction => Block([], None)
      case Returns => Block([ErrorCalled(e)], None)
      case Throws(m) => Block([ErrorCalled(e)], Some(m))
  }

  /** The `finally` block: `onFinally()` after everything else; an exception it throws replaces a pending one. */
  function FinallyBlock(before: seq<Event>, pending: Option<string>, onFinally: Callback): (s: Settled)
    ensures s.events == before + (if onFinally != NotAFunction then [FinallyCalled] else [])
    ensures s.rejection == if onFinally.Throws? then Some(onFinally.message) else pending
  {
    match onFinally
    case NotAFunction => Settled(before, pending)
    case Returns => Settled(before + [FinallyCalled], pending)
    case Throws(m) => Settled(before + [FinallyCalled], Some(m))
  }

  /** try / catch / finally of every CRUD helper. */
  function RunCallbacks(outcome: Result<JsonValue, string>, h: Handlers): (s: Settled)
    ensures FinallyCalled in s.events <==> h.onFinally != NotAFunction
    ensures h.onFinally != NotAFunction ==>
      s.events[|s.events| - 1] == FinallyCalled && FinallyCalled !in s.events[..|s.events| - 1]
    ensures h.onFinally.Throws? ==> s.rejection == Some(h.onFinally.message)
  {
    var tried := TryBlock(outcome, h.onSuccess);
    var handled := CatchBlock(tried.thrown, h.onError);
    var s := FinallyBlock(tried.events + handled.events, handled.thrown, h.onFinally);
    assert FinallyCalled !in tried.events + handled.events;
    assert h.onFinally != NotAFunction ==> s.events[..|s.events| - 1] == tried.events + handled.events;
    s
  }

  /** `getItems`: a GET of `endPoint` with the default JSON `Content-Type`. */
  method GetItems(endPoint: string, h: Handlers, network: Request -> Fetched)
    returns (request: Request, settled: Settled)
    ensures request == Request("GET", Url(endPoint), map[ContentTypeHeader := JsonType], NoBody)
    ensures settled == RunCallbacks(RequestOutcome(network(request)), h)
  {
    var headers := new Headers(map[]);
    var result;
    request, result := ApiRequest(endPoint, RequestOptions(None, NoBody, None), headers, network);
    settled := RunCallbacks(result, h);
  }

  /** `createItem`: a POST of `endPoint` whose body the content type (default JSON) selects. */
  method CreateItem(item: Record, endPoint: string, contentType: Option<string>, h: Handlers,
                    network: Request -> Fetched, encode: string -> string)
    returns (request: Request, settled: Settled)
    ensures var ct := contentType.GetOr(JsonType);
      request == Request("POST", Url(endPoint), WithContentType(map[], Some(ct)), BodyFor(item, ct, encode))
    ensures settled == RunCallbacks(RequestOutcome(network(request)), h)
  {
    var ct := contentType.GetOr(JsonType);
    var body := EncodeBody(item, ct, encode);
    var headers := new Headers(map[]);
    var result;
    request, result := ApiRequest(endPoint, RequestOptions(Some("POST"), body, Some(ct)), headers, network);
    settled := RunCallbacks(result, h);
  }

  /** `updateItem`: a PATCH of `endPoint/<item.id>` with the same body selection as `createItem`. */
  method UpdateItem(item: Record, endPoint: string, contentType: Option<string>, h: Handlers,
                    network: Request -> Fetched, encode: string -> string)
    returns (request: Request, settled: Settled)
    ensures var ct := contentType.GetOr(JsonType);
      request == Request("PATCH", Url(endPoint + "/" + IdText(item)), WithContentType(map[], Some(ct)),
                         BodyFor(item, ct, encode))
    ensures settled == RunCallbacks(RequestOutcome(network(request)), h)
  {
    var ct := contentType.GetOr(JsonType);
    var body := EncodeBody(item, ct, encode);
    var headers := new Headers(map[]);
    var result;
    request, result := ApiRequest(endPoint + "/" + IdText(item), RequestOptions(Some("PATCH"), body, Some(ct)),
                                  headers, network);
    settled := RunCallbacks(result, h);
  }

  /** `deleteItem`: a DELETE of `endPoint/<id>` with no body. */
  method DeleteItem(id: string, endPoint: string, h: Handlers, network: Request -> Fetched)
    returns (request: Request, settled: Settled)
    ensures request == Request("DELETE", Url(endPoint + "/" + id), map[ContentTypeHeader := JsonType], NoBody)
    ensures settled == RunCallbacks(RequestOutcome(network(request)), h)
  {
    var headers := new Headers(map[]);
    var result;
    request, result := ApiRequest(endPoint + "/" + id, RequestOptions(Some("DELETE"), NoBody, None), headers, network);
    settled := RunCallbacks(result, h);
  }

  /** The callbacks a helper makes.  A failed request: `onError` then `onFinally`, never `onSuccess`. */
  lemma FailedRequestCallbacks(error: string, h: Handlers)
    ensures var s := RunCallbacks(Err(error), h);
      (forall i :: 0 <= i < |s.events| ==> !s.events[i].SuccessCalled?) &&
      s.events == (if h.onError != NotAFunction then [ErrorCalled(error)] else []) +
                  (if h.onFinally != NotAFunction then [FinallyCalled] else []) &&
      s.rejection == (if h.onFinally.Throws? then Some(h.onFinally.message)
                      else if h.onError.Throws? then Some(h.onError.message)
                      else None)
  {
    var tried := TryBlock(Err(error), h.onSuccess);
    var handled := CatchBlock(Some(error), h.onError);
    assert tried == Block([], Some(error));
    assert RunCallbacks(Err(error), h) == FinallyBlock(handled.events, handled.thrown, h.onFinally) by {
      assert tried.events + handled.events == handled.events;
    }
  }

  /**
   * A successful request: `onSuccess(data)`, then `onError` only for an
   * exception `onSuccess` threw, then `onFinally`.
   */
  lemma SucceededRequestCallbacks(data: JsonValue, h: Handlers)
    ensures var s := RunCallbacks(Ok(data), h);
      s.events == (if h.onSuccess != NotAFunction then [SuccessCalled(data)] else []) +
                  (if h.onSuccess.Throws? && h.onError != NotAFunction
                   then [ErrorCalled(h.onSuccess.message)] else []) +
                  (if h.onFinally != NotAFunction then [FinallyCalled] else []) &&
      (!h.onSuccess.Throws? ==> forall i :: 0 <= i < |s.events| ==> !s.events[i].ErrorCalled?) &&
      s.rejection == (if h.onFinally.Throws? then Some(h.onFinally.message)
                      else if h.onSuccess.Throws? && h.onError.Throws? then Some(h.onError.message)
                      else None)
  {
    var tried := TryBlock(Ok(data), h.onSuccess);
    var handled := CatchBlock(tried.thrown, h.onError);
    assert RunCallbacks(Ok(data), h) == FinallyBlock(tried.events + handled.events, handled.thrown, h.onFinally);
  }

  /** Whatever the outcome, a helper makes at most one `onSuccess`, one `onError` and one `onFinally` call. */
  lemma AtMostOneOfEach(outcome: Result<JsonValue, string>, h: Handlers)
    ensures var s := RunCallbacks(outcome, h);
      |s.events| <= 3 &&
      forall i, j :: 0 <= i < j < |s.events| ==> !SameCallback(s.events[i], s.events[j])
  {
    match outcome {
      case Err(e) => FailedRequestCallbacks(e, h);
      case Ok(d) => SucceededRequestCallbacks(d, h);
    }
  }

  /** `updateItem` addresses the item by its `id` property. */
  lemma IdTextFinds(item: Record, i: nat)
    requires i < |item| && item[i].key == "id"
    requires forall j :: 0 <= j < i ==> item[j].key != "id"
    ensures IdText(item) == item[i].value
  {
    if i > 0 {
      IdTextFinds(item[1..], i - 1);
    }
  }
}
