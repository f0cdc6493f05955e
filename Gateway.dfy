/**
 * The gateway (backend/app.py): the field validator `require_fields` and the
 * request handling that the four routes share — a batch of items processed
 * one by one into per-item results, or a single request validated and
 * forwarded once.
 *
 * The downstream service is a parameter: a total function from the target URL
 * and the JSON payload to the reply's status code, raw text and decoded body.
 */
module Gateway {
  import opened Strings

  /** A decoded JSON value. Numbers are integers here. */
  datatype Json =
    | Null
    | Bool(b: bool)
    | Num(n: int)
    | Str(s: string)
    | Arr(items: seq<Json>)
    | Obj(fields: map<string, Json>)

  /** Python truthiness of a decoded JSON value: `null`, `false`, `0`, `""`, `[]` and `{}` are falsy. */
  predicate Truthy(v: Json) {
    match v
    case Null => false
    case Bool(b) => b
    case Num(n) => n != 0
    case Str(s) => s != []
    case Arr(items) => items != []
    case Obj(fields) => fields != map[]
  }

  /** Python's type name for a decoded JSON value. */
  function TypeName(v: Json): string {
    match v
    case Null => "NoneType"
    case Bool(_) => "bool"
    case Num(_) => "int"
    case Str(_) => "str"
    case Arr(_) => "list"
    case Obj(_) => "dict"
  }

  /** The text of the `AttributeError` raised by calling `.get` on a value that is not a dict. */
  function NoGetMessage(v: Json): string {
    "'" + TypeName(v) + "' object has no attribute 'get'"
  }

  // ---------------------------------------------------------------------------
  // Routes

  /** The four gateway routes. */
  datatype Route = GettingScript | Summarize | Chat | ExtractMainPoints

  /** The fields each route requires of a request or batch item, in checking order. */
  function RequiredFields(route: Route): seq<string> {
    match route
    case GettingScript => ["input_link", "language"]
    case Summarize => ["input_text"]
    case Chat => ["input_text", "question"]
    case ExtractMainPoints => ["input_text"]
  }

  /** Where each route forwards to. */
  function DownstreamUrl(route: Route): string {
    match route
    case GettingScript => "http://127.0.0.1:8000/getting_script"
    case Summarize => "http://127.0.0.1:8000/summarize"
    case Chat => "http://127.0.0.1:8000/chat"
    case ExtractMainPoints => "http://127.0.0.1:8000/extract_main_points"
  }

  /** The `error` text of a single request whose downstream call did not answer 200. */
  function FailureLabel(route: Route): string {
    match route
    case GettingScript => "Script API failed"
    case Summarize => "Summarize API failed"
    case Chat => "Chat API failed"
    case ExtractMainPoints => "Extract API failed"
  }

  // ---------------------------------------------------------------------------
  // Validation

  const MissingPrefix: string := "Missing required field(s): "

  /** `require_fields`'s `(True, None)` and `(False, message)`. */
  datatype Validation = Valid | Invalid(message: string)

  /** `data.get(f)` is truthy. */
  predicate Present(data: map<string, Json>, f: string) {
    f in data && Truthy(data[f])
  }

  /** `[f for f in fields if not data.get(f)]`. */
  function MissingFields(data: map<string, Json>, fields: seq<string>): (missing: seq<string>)
    ensures forall f :: f in missing <==> f in fields && !Present(data, f)
    ensures |missing| <= |fields|
  {
    if |fields| == 0 then []
    else
      var rest := MissingFields(data, fields[1..]);
      assert fields == [fields[0]] + fields[1..];
      if Present(data, fields[0]) then rest else [fields[0]] + rest
  }

  /** `require_fields`: valid when every listed field is present and truthy; otherwise the missing names, comma-joined. */
  function RequireFields(data: map<string, Json>, fields: seq<string>): (r: Validation)
    ensures r.Valid? <==> forall f :: f in fields ==> Present(data, f)
    ensures r.Invalid? ==> r.message == MissingPrefix + Join(MissingFields(data, fields), ", ")
  {
    var missing := MissingFields(data, fields);
    if |missing| > 0 then
      assert missing[0] in missing;
      Invalid(MissingPrefix + Join(missing, ", "))
    else
      Valid
  }

  /** `xs` is `ys` with some elements left out, the rest kept in order. */
  predicate IsSubsequence<T(==)>(xs: seq<T>, ys: seq<T>)
    decreases |ys|
  {
    if xs == [] then true
    else if ys == [] then false
    else if xs[0] == ys[0] then IsSubsequence(xs[1..], ys[1..])
    else IsSubsequence(xs, ys[1..])
  }

  /** The missing names are listed in the order of `fields`, each occurrence at most once. */
  lemma {:induction false} MissingInOrder(data: map<string, Json>, fields: seq<string>)
    ensures IsSubsequence(MissingFields(data, fields), fields)
    decreases |fields|
  {
    if |fields| > 0 {
      var rest := MissingFields(data, fields[1..]);
      MissingInOrder(data, fields[1..]);
      if Present(data, fields[0]) {
        SubsequenceOfLonger(rest, fields);
      } else {
        assert ([fields[0]] + rest)[1..] == rest;
      }
    }
  }

  /** Dropping the first element of the longer sequence keeps a subsequence a subsequence of the whole. */
  lemma {:induction false} SubsequenceOfLonger<T>(xs: seq<T>, ys: seq<T>)
    requires |ys| > 0 && IsSubsequence(xs, ys[1..])
    ensures IsSubsequence(xs, ys)
    decreases |ys|, |xs|
  {
    if xs != [] && xs[0] == ys[0] {
      SubsequenceDropFirst(xs, ys[1..]);
    }
  }

  /** A subsequence without its first element is still a subsequence. */
  lemma {:induction false} SubsequenceDropFirst<T>(xs: seq<T>, ys: seq<T>)
    requires xs != [] && IsSubsequence(xs, ys)
    ensures IsSubsequence(xs[1..], ys)
    decreases |ys|, |xs|
  {
    if xs[0] == ys[0] {
      if |ys| > 0 {
        SubsequenceOfLonger(xs[1..], ys);
      }
    } else {
      SubsequenceDropFirst(xs, ys[1..]);
      SubsequenceOfLonger(xs[1..], ys);
    }
  }

  // ---------------------------------------------------------------------------
  // Forwarding

  /** The downstream reply: `status_code`, `text` and `json()`. */
  datatype Reply = Reply(status: int, text: string, body: Json)

  /** The downstream service, by target URL and payload. */
  type Downstream = (string, map<string, Json>) -> Reply

  /** The payload forwarded for an item: its required fields, nothing else. */
  function Payload(item: map<string, Json>, fields: seq<string>): (p: map<string, Json>)
    ensures forall f :: f in p <==> f in fields && f in item
    ensures forall f :: f in p ==> p[f] == item[f]
  {
    map f | f in fields && f in item :: item[f]
  }

  /** `item.get("id")`, with `None` as JSON null. */
  function IdOf(item: map<string, Json>): Json {
    if "id" in item then item["id"] else Null
  }

  /** One entry of a batch's `results`: `{id, error}` or `{id, response}`. */
  datatype ItemResult = ItemError(id: Json, error: string) | ItemResponse(id: Json, response: Json)

  /** What a route answers. */
  datatype Response =
    | Relayed(body: Json)                                 // 200, the downstream body
    | Batch(results: seq<ItemResult>)                     // 200, `{"results": [...]}`
    | Rejected(error: string)                             // 400, `{"error": ...}`
    | Failed(error: string, details: string, code: int)   // downstream code, `{"error", "details"}`
    | Crashed(error: string)                              // 500, `{"error": str(e)}`

  /** The HTTP status code a route answers with. */
  function Status(resp: Response): int {
    match resp
    case Relayed(_) => 200
    case Batch(_) => 200
    case Rejected(_) => 400
    case Failed(_, _, code) => code
    case Crashed(_) => 500
  }

  /** One entry of `results` on the wire: the `id` and exactly one of `error` or `response`. */
  function ItemJson(r: ItemResult): (j: Json)
    ensures j.Obj? && |j.fields| == 2 && "id" in j.fields && j.fields["id"] == r.id
    ensures "error" in j.fields <==> r.ItemError?
    ensures r.ItemError? ==> j.fields["error"] == Str(r.error)
    ensures "response" in j.fields <==> r.ItemResponse?
    ensures r.ItemResponse? ==> j.fields["response"] == r.response
  {
    match r
    case ItemError(id, error) => Obj(map["id" := id, "error" := Str(error)])
    case ItemResponse(id, response) => Obj(map["id" := id, "response" := response])
  }

  /** The JSON body a route answers with; a batch is `{"results": [...]}`, one entry per result, in order. */
  function Body(resp: Response): (j: Json)
    ensures resp.Batch? ==>
      && j.Obj? && j.fields.Keys == {"results"} && j.fields["results"].Arr?
      && |j.fields["results"].items| == |resp.results|
      && forall i :: 0 <= i < |resp.results| ==> j.fields["results"].items[i] == ItemJson(resp.results[i])
  {
    match resp
    case Relayed(body) => body
    case Batch(results) => Obj(map["results" := Arr(seq(|results|, i requires 0 <= i < |results| => ItemJson(results[i])))])
    case Rejected(error) => Obj(map["error" := Str(error)])
    case Failed(error, details, _) => Obj(map["error" := Str(error), "details" := Str(details)])
    case Crashed(error) => Obj(map["error" := Str(error)])
  }

  // ---------------------------------------------------------------------------
  // Batch and single requests

  /** The index of the first batch item that is not a JSON object, or the batch length. */
  function FirstNonObject(items: seq<Json>): (k: nat)
    ensures k <= |items|
    ensures forall j :: 0 <= j < k ==> items[j].Obj?
    ensures k < |items| ==> !items[k].Obj?
  {
    if |items| == 0 || !items[0].Obj? then 0 else 1 + FirstNonObject(items[1..])
  }

  /**
   * The result entry for one object item: its own `id`, and the validation
   * message, the downstream text of a non-200 reply, or the downstream body.
   */
  ghost predicate ItemAnswered(fields: seq<string>, url: string, item: map<string, Json>, downstream: Downstream, r: ItemResult) {
    var check := RequireFields(item, fields);
    && r.id == IdOf(item)
    && (check.Invalid? ==> r == ItemError(IdOf(item), check.message))
    && (check.Valid? ==>
          var reply := downstream(url, Payload(item, fields));
          r == if reply.status != 200 then ItemError(IdOf(item), reply.text) else ItemResponse(IdOf(item), reply.body))
  }

  /**
   * A batch answer: a non-object item turns the whole answer into a 500;
   * otherwise one result per item, in input order, each answering its item.
   */
  ghost predicate BatchAnswered(fields: seq<string>, url: string, items: seq<Json>, downstream: Downstream, resp: Response) {
    var stop := FirstNonObject(items);
    && (stop < |items| ==> resp == Crashed(NoGetMessage(items[stop])))
    && (stop == |items| ==>
          && resp.Batch? && |resp.results| == |items|
          && forall i :: 0 <= i < |items| ==> ItemAnswered(fields, url, items[i].fields, downstream, resp.results[i]))
  }

  /**
   * `forwarded[i]` says whether item `i` was sent downstream: the items up to
   * the first non-object are visited, and each is sent exactly when it is valid.
   */
  ghost predicate BatchForwarded(fields: seq<string>, items: seq<Json>, forwarded: seq<bool>) {
    var stop := FirstNonObject(items);
    && |forwarded| == stop
    && forall i :: 0 <= i < stop ==> (forwarded[i] <==> RequireFields(items[i].fields, fields).Valid?)
  }

  /**
   * The body of the batch loop for an object item: validate, and either
   * record the error (no downstream call) or forward the item's required
   * fields and record the reply. `sent` says whether the call was made.
   */
  method HandleItem(fields: seq<string>, url: string, item: map<string, Json>, downstream: Downstream)
    returns (r: ItemResult, ghost sent: bool)
    ensures ItemAnswered(fields, url, item, downstream, r)
    ensures sent <==> RequireFields(item, fields).Valid?
  {
    var check := RequireFields(item, fields);
    if check.Invalid? {
      return ItemError(IdOf(item), check.message), false;
    }
    var reply := downstream(url, Payload(item, fields));
    sent := true;
    if reply.status != 200 {
      r := ItemError(IdOf(item), reply.text);
    } else {
      r := ItemResponse(IdOf(item), reply.body);
    }
  }

  /** The `for item in data["requests"]` loop; `forwarded` records which items were sent downstream. */
  method ProcessBatch(fields: seq<string>, url: string, items: seq<Json>, downstream: Downstream)
    returns (resp: Response, ghost forwarded: seq<bool>)
    ensures BatchAnswered(fields, url, items, downstream, resp)
    ensures BatchForwarded(fields, items, forwarded)
  {
    var results: seq<ItemResult> := [];
    forwarded := [];
    for i := 0 to |items|
      invariant |results| == i
      invariant forall j :: 0 <= j < i ==> items[j].Obj?
      invariant |forwarded| == i
      invariant forall j :: 0 <= j < i ==> ItemAnswered(fields, url, items[j].fields, downstream, results[j])
      invariant forall j :: 0 <= j < i ==> (forwarded[j] <==> RequireFields(items[j].fields, fields).Valid?)
    {
      if !items[i].Obj? {
        // `item.get` raises; the route's handler turns that into a 500.
        assert FirstNonObject(items) == i;
        resp := Crashed(NoGetMessage(items[i]));
        return;
      }
      var r, sent := HandleItem(fields, url, items[i].fields, downstream);
      results := results + [r];
      forwarded := forwarded + [sent];
    }
    resp := Batch(results);
  }

  /** How many of the flags are set: the number of downstream calls a batch made. */
  function CountTrue(flags: seq<bool>): nat {
    if |flags| == 0 then 0 else (if flags[0] then 1 else 0) + CountTrue(flags[1..])
  }

  /** No flag set means no call counted, and the other way round. */
  lemma {:induction false} CountTrueZero(flags: seq<bool>)
    ensures CountTrue(flags) == 0 <==> forall i :: 0 <= i < |flags| ==> !flags[i]
  {
    if |flags| > 0 {
      CountTrueZero(flags[1..]);
      assert forall i :: 1 <= i < |flags| ==> flags[i] == flags[1..][i - 1];
    }
  }

  /** A batch none of whose object items passes validation makes no downstream call at all. */
  lemma NoValidItemNoCall(fields: seq<string>, items: seq<Json>, forwarded: seq<bool>)
    requires BatchForwarded(fields, items, forwarded)
    requires forall i :: 0 <= i < |items| && items[i].Obj? ==> RequireFields(items[i].fields, fields).Invalid?
    ensures CountTrue(forwarded) == 0
  {
    CountTrueZero(forwarded);
  }

  /**
   * The answer to a single request: a validation failure is a 400; otherwise
   * the one downstream reply's non-200 status is passed on with `error`/`details`
   * and a 200 body is relayed.
   */
  ghost predicate SingleAnswered(route: Route, data: map<string, Json>, downstream: Downstream, resp: Response) {
    var check := RequireFields(data, RequiredFields(route));
    && (check.Invalid? ==> resp == Rejected(check.message))
    && (check.Valid? ==>
          var reply := downstream(DownstreamUrl(route), Payload(data, RequiredFields(route)));
          resp == if reply.status != 200 then Failed(FailureLabel(route), reply.text, reply.status) else Relayed(reply.body))
  }

  method ProcessSingle(route: Route, data: map<string, Json>, downstream: Downstream)
    returns (resp: Response, ghost calls: nat)
    ensures SingleAnswered(route, data, downstream, resp)
    ensures calls == if RequireFields(data, RequiredFields(route)).Valid? then 1 else 0
  {
    var fields := RequiredFields(route);
    var check := RequireFields(data, fields);
    if check.Invalid? {
      return Rejected(check.message), 0;
    }
    var reply := downstream(DownstreamUrl(route), Payload(data, fields));
    calls := 1;
    if reply.status != 200 {
      resp := Failed(FailureLabel(route), reply.text, reply.status);
    } else {
      resp := Relayed(reply.body);
    }
  }

  /** `request.json or {}`: a falsy body is read as an empty object. */
  function RequestData(body: Json): Json {
    if Truthy(body) then body else Obj(map[])
  }

  /** `isinstance(data.get("requests"), list)`. */
  predicate IsBatch(data: map<string, Json>) {
    "requests" in data && data["requests"].Arr?
  }

  /**
   * A route handler: batch mode exactly when `requests` is a list, single mode
   * otherwise; `calls` counts the downstream calls made.
   */
  method Serve(route: Route, body: Json, downstream: Downstream) returns (resp: Response, ghost calls: nat)
    ensures var data := RequestData(body);
      && (!data.Obj? ==> resp == Crashed(NoGetMessage(data)) && calls == 0)
      && (data.Obj? && IsBatch(data.fields) ==>
            && BatchAnswered(RequiredFields(route), DownstreamUrl(route), data.fields["requests"].items, downstream, resp)
            && exists forwarded: seq<bool> :: calls == CountTrue(forwarded) &&
                 BatchForwarded(RequiredFields(route), data.fields["requests"].items, forwarded))
      && (data.Obj? && !IsBatch(data.fields) ==>
            && SingleAnswered(route, data.fields, downstream, resp)
            && calls == if RequireFields(data.fields, RequiredFields(route)).Valid? then 1 else 0)
    ensures resp.Batch? ==> RequestData(body).Obj? && IsBatch(RequestData(body).fields)
  {
    var data := RequestData(body);
    if !data.Obj? {
      return Crashed(NoGetMessage(data)), 0;
    }
    if IsBatch(data.fields) {
      ghost var forwarded;
      resp, forwarded := ProcessBatch(RequiredFields(route), DownstreamUrl(route), data.fields["requests"].items, downstream);
      calls := CountTrue(forwarded);
    } else {
      resp, calls := ProcessSingle(route, data.fields, downstream);
    }
  }

  /**
   * A batch answers 200 whatever its items' downstream replies were, and 500
   * when an item is not an object.
   */
  lemma BatchStatus(fields: seq<string>, url: string, items: seq<Json>, downstream: Downstream, resp: Response)
    requires BatchAnswered(fields, url, items, downstream, resp)
    ensures Status(resp) == if FirstNonObject(items) < |items| then 500 else 200
  {
    if FirstNonObject(items) < |items| {
      assert resp.Crashed?;
    } else {
      assert resp.Batch?;
    }
  }

  /**
   * A single request answers 400 on a validation failure, and otherwise with
   * the downstream reply's own status code.
   */
  lemma SingleStatus(route: Route, data: map<string, Json>, downstream: Downstream, resp: Response)
    requires SingleAnswered(route, data, downstream, resp)
    ensures Status(resp) ==
      if RequireFields(data, RequiredFields(route)).Invalid? then 400
      else downstream(DownstreamUrl(route), Payload(data, RequiredFields(route))).status
  {
  }

  /** The batch item `{"id": 2}` sent to `/summarize` gets exactly this error entry, and no downstream call. */
  lemma SummarizeMissingText(url: string, downstream: Downstream, r: ItemResult)
    requires ItemAnswered(RequiredFields(Summarize), url, map["id" := Num(2)], downstream, r)
    ensures r == ItemError(Num(2), "Missing required field(s): input_text")
    ensures RequireFields(map["id" := Num(2)], RequiredFields(Summarize)).Invalid?
    ensures ItemJson(r) == Obj(map["id" := Num(2), "error" := Str("Missing required field(s): input_text")])
  {
    var data := map["id" := Num(2)];
    assert !Present(data, "input_text");
    assert MissingFields(data, ["input_text"]) == ["input_text"];
  }
}
