/**
 * `handle_mcp_post`: the POST endpoint that takes one JSON-RPC envelope or a
 * batch of them, answers requests, stays silent for notifications, and turns
 * exceptions into JSON-RPC error objects with code -32603.
 */
module Endpoint {
  import opened Wrappers
  import opened Text
  import opened PyValues
  import opened Gather
  import opened WebTools
  import opened Dispatcher

  /** An envelope, as the dict accessors see it: `id` and `params` are JNull
      when missing; `rpcMethod` is None when the key is missing, so that
      `req.get("method", "")` can tell a missing method from a null one. */
  datatype Env = Env(id: Json, rpcMethod: Option<Json>, params: Json)

  /** A batch element or a single body: a JSON object, or any other JSON value. */
  datatype Item = Object(env: Env) | NonObject

  /** The request body: not JSON at all, one value, or a JSON array. */
  datatype Body = Malformed | Single(item: Item) | Batch(items: seq<Item>)

  /** JSON-RPC's "Internal error" code. */
  const InternalErrorCode := -32603

  /** `{"code": -32603, "message": "Internal error", "data": str(e)}`. */
  datatype ErrorObject = ErrorObject(code: int, message: string, data: Fault)

  function InternalError(f: Fault): ErrorObject
  {
    ErrorObject(InternalErrorCode, "Internal error", f)
  }

  /** A JSON-RPC response: exactly one of `result` and `error`. */
  datatype Response = Success(id: Json, result: Reply) | Failure(id: Json, error: ErrorObject)

  /** The body of the HTTP reply: one response, an array of them, or `{}`. */
  datatype Payload = One(response: Response) | Many(responses: seq<Response>) | Ack

  datatype HttpReply = HttpReply(status: int, payload: Payload)

  /** `req.get("method")` as passed to `handle_mcp_method`. */
  function MethodOf(e: Env): Json
  {
    if e.rpcMethod.Some? then e.rpcMethod.value else JNull
  }

  /** An envelope whose method starts with "notifications/". */
  predicate IsNotification(e: Env)
  {
    e.rpcMethod.Some? && e.rpcMethod.value.JStr? && IsNotificationName(e.rpcMethod.value.s)
  }

  /** A batch element whose failure escapes the per-element handler: not an
      object, or an object whose `method` is present but not a string (the
      handler's own `req.get("method", "").startswith` then raises). */
  predicate Escapes(item: Item)
  {
    item.NonObject? || (item.env.rpcMethod.Some? && !item.env.rpcMethod.value.JStr?)
  }

  /** One turn of the batch loop: nothing for a notification, a result or an
      error response carrying the envelope's id otherwise, or an exception
      that leaves the loop. */
  function BatchStep(net: Net, so: SymbolTable, item: Item): Result<Option<Response>, Fault>
  {
    match item
    case NonObject => Err(AttributeError("get"))
    case Object(e) =>
      match HandleMethod(net, so, MethodOf(e), e.params)
      case Ok(None) => Ok(None)
      case Ok(Some(reply)) => Ok(Some(Success(e.id, reply)))
      case Err(f) =>
        var m := if e.rpcMethod.Some? then e.rpcMethod.value else JStr("");
        if !m.JStr? then Err(AttributeError("startswith"))
        else if IsNotificationName(m.s) then Ok(None)
        else Ok(Some(Failure(e.id, InternalError(f))))
  }

  function BatchSteps(net: Net, so: SymbolTable, items: seq<Item>): (outs: seq<Result<Option<Response>, Fault>>)
    ensures |outs| == |items|
    ensures forall j :: 0 <= j < |items| ==> outs[j] == BatchStep(net, so, items[j])
  {
    seq(|items|, j requires 0 <= j < |items| => BatchStep(net, so, items[j]))
  }

  /** The 500 reply of the outer handler: one error with a null id. */
  function ServerError(f: Fault): HttpReply
  {
    HttpReply(500, One(Failure(JNull, InternalError(f))))
  }

  /** What `handle_mcp_post` answers to a body. */
  function PostReply(net: Net, so: SymbolTable, body: Body): HttpReply
  {
    match body
    case Malformed => ServerError(DecodeError)
    case Batch(items) =>
      (match Collect(BatchSteps(net, so, items))
       case Ok(responses) => HttpReply(200, Many(responses))
       case Err(f) => ServerError(f))
    case Single(NonObject) => ServerError(AttributeError("get"))
    case Single(Object(e)) =>
      match HandleMethod(net, so, MethodOf(e), e.params)
      case Err(f) => ServerError(f)
      case Ok(None) => HttpReply(200, Ack)
      case Ok(Some(reply)) => HttpReply(200, One(Success(e.id, reply)))
  }

  /** `handle_mcp_post`, with its loop over a batch. */
  method HandlePost(net: Net, so: SymbolTable, body: Body) returns (reply: HttpReply)
    ensures reply == PostReply(net, so, body)
  {
    match body {
      case Malformed =>
        return ServerError(DecodeError);
      case Single(item) =>
        if item.NonObject? {
          return ServerError(AttributeError("get"));
        }
        var e := item.env;
        var result := HandleMethod(net, so, MethodOf(e), e.params);
        if result.Err? {
          return ServerError(result.error);
        }
        if result.value.Some? {
          reply := HttpReply(200, One(Success(e.id, result.value.value)));
        } else {
          reply := HttpReply(200, Ack);
        }
      case Batch(items) =>
        ghost var outs := BatchSteps(net, so, items);
        var responses: seq<Response> := [];
        for i := 0 to |items|
          invariant Collect(outs[..i]) == Ok(responses)
        {
          assert outs[..i + 1][..i] == outs[..i];
          var step := BatchStep(net, so, items[i]);
          if step.Err? {
            CollectErrSticks(outs, i + 1);
            return ServerError(step.error);
          }
          if step.value.Some? {
            responses := responses + [step.value.value];
          }
        }
        assert outs[..|items|] == outs;
        reply := HttpReply(200, Many(responses));
    }
  }

  // ------------------------------------------------------------------- batches

  /** The envelopes of a batch that are answered: the objects that are not
      notifications, in batch order. */
  function Requests(items: seq<Item>): seq<Env>
  {
    if items == [] then []
    else
      var last := items[|items| - 1];
      Requests(items[..|items| - 1])
      + (if last.Object? && !IsNotification(last.env) then [last.env] else [])
  }

  /** `r` is the answer JSON-RPC expects for the request `e`: its id, and the
      result of `handle_mcp_method` or an internal error carrying the exception. */
  predicate Answers(net: Net, so: SymbolTable, e: Env, r: Response)
  {
    match HandleMethod(net, so, MethodOf(e), e.params)
    case Ok(Some(reply)) => r == Success(e.id, reply)
    case Err(f) => r == Failure(e.id, InternalError(f))
    case Ok(None) => false
  }

  /** A batch step raises exactly for an element that escapes its handler. */
  lemma BatchStepEscapes(net: Net, so: SymbolTable, item: Item)
    ensures BatchStep(net, so, item).Err? <==> Escapes(item)
    ensures !Escapes(item) ==>
      (BatchStep(net, so, item) == Ok(None) <==> IsNotification(item.env))
    ensures !Escapes(item) && !IsNotification(item.env) ==>
      Answers(net, so, item.env, BatchStep(net, so, item).value.value)
  {
    if item.Object? {
      var e := item.env;
      HandleMethodNotification(net, so, MethodOf(e), e.params);
      if e.rpcMethod.None? {
        assert !IsNotificationName("");
      }
    }
  }

  /** One answer per request, in batch order, each carrying its request's id;
      notifications, even failing ones, add nothing. */
  lemma {:induction false} BatchAnswers(net: Net, so: SymbolTable, items: seq<Item>)
    requires forall k :: 0 <= k < |items| ==> !Escapes(items[k])
    ensures Collect(BatchSteps(net, so, items)).Ok?
    ensures var rs := Collect(BatchSteps(net, so, items)).value;
      && |rs| == |Requests(items)|
      && forall k :: 0 <= k < |rs| ==> rs[k].id == Requests(items)[k].id && Answers(net, so, Requests(items)[k], rs[k])
  {
    if items != [] {
      var n := |items| - 1;
      var front := items[..n];
      BatchAnswers(net, so, front);
      var outs := BatchSteps(net, so, items);
      assert outs[..n] == BatchSteps(net, so, front);
      BatchStepEscapes(net, so, items[n]);
    }
  }

  /** A batch is answered with a 500 exactly when one of its elements escapes
      its handler. */
  lemma BatchFails(net: Net, so: SymbolTable, items: seq<Item>)
    ensures PostReply(net, so, Batch(items)).status == 500
      <==> exists k :: 0 <= k < |items| && Escapes(items[k])
  {
    var outs := BatchSteps(net, so, items);
    CollectErr(outs);
    forall k | 0 <= k < |items|
      ensures outs[k].Err? <==> Escapes(items[k])
    {
      BatchStepEscapes(net, so, items[k]);
    }
  }

  /** A batch of notifications only is answered with an empty array. */
  lemma AllNotificationsBatch(net: Net, so: SymbolTable, items: seq<Item>)
    requires forall k :: 0 <= k < |items| ==> items[k].Object? && IsNotification(items[k].env)
    ensures PostReply(net, so, Batch(items)) == HttpReply(200, Many([]))
  {
    var outs := BatchSteps(net, so, items);
    forall k | 0 <= k < |items|
      ensures outs[k] == Ok(None)
    {
      BatchStepEscapes(net, so, items[k]);
    }
    CollectNone(outs);
  }

  // ------------------------------------------------------------------- singles

  /** A single notification is acknowledged with an empty object and status 200. */
  lemma SingleNotification(net: Net, so: SymbolTable, e: Env)
    requires IsNotification(e)
    ensures PostReply(net, so, Single(Object(e))) == HttpReply(200, Ack)
  {
  }

  /** A single request that `handle_mcp_method` answers gets one result
      carrying its id. */
  lemma SingleSuccess(net: Net, so: SymbolTable, e: Env)
    requires !IsNotification(e) && HandleMethod(net, so, MethodOf(e), e.params).Ok?
    ensures PostReply(net, so, Single(Object(e)))
      == HttpReply(200, One(Success(e.id, HandleMethod(net, so, MethodOf(e), e.params).value.value)))
  {
    HandleMethodNotification(net, so, MethodOf(e), e.params);
  }

  /** The asymmetry between the two paths: an exception from
      `handle_mcp_method` for a lone envelope reaches the outer handler and is
      answered with status 500 and a null id, while the same envelope inside
      a batch is answered with status 200 and an error carrying its own id. */
  lemma SingleFailureLosesId(net: Net, so: SymbolTable, e: Env, f: Fault)
    requires HandleMethod(net, so, MethodOf(e), e.params) == Err(f)
    requires !Escapes(Object(e))
    ensures PostReply(net, so, Single(Object(e))) == HttpReply(500, One(Failure(JNull, InternalError(f))))
    ensures PostReply(net, so, Batch([Object(e)])) == HttpReply(200, Many([Failure(e.id, InternalError(f))]))
  {
    var items := [Object(e)];
    BatchStepEscapes(net, so, Object(e));
    HandleMethodNotification(net, so, MethodOf(e), e.params);
    assert !IsNotification(e);
    BatchAnswers(net, so, items);
    assert Requests(items) == Requests(items[..0]) + [e];
    var rs := Collect(BatchSteps(net, so, items)).value;
    assert |rs| == 1 && Answers(net, so, e, rs[0]);
    assert rs == [Failure(e.id, InternalError(f))];
  }

  /** Every 500 reply is one internal error (-32603) with a null id; a body
      that is not JSON always gets one. */
  lemma ServerErrorShape(net: Net, so: SymbolTable, body: Body)
    ensures PostReply(net, so, body).status in {200, 500}
    ensures PostReply(net, so, body).status == 500 ==>
      var p := PostReply(net, so, body).payload;
      p.One? && p.response.Failure? && p.response.id == JNull && p.response.error.code == InternalErrorCode
    ensures body.Malformed? ==> PostReply(net, so, body) == HttpReply(500, One(Failure(JNull, InternalError(DecodeError))))
  {
  }
}
