/**
  The streaming server in its own form: an object whose methods update the request context
  in place and send replies one at a time. Each method is proved against the functions of
  ExtProc, about which the properties of all runs are proved.
*/
module ExtProcServer {
  import opened Basics
  import opened ExtProc

  class RequestContext {
    const env: Env

    // the protocol fields of the request context, around the ones that follow the HTTP request
    var phase: Phase
    var running: bool
    var ctx: Ctx
    var reqHeader: Option<Reply>
    var reqBody: seq<Reply>
    var respHeader: Option<Reply>
    var respBody: seq<Reply>

    // what the outside world has seen of this stream
    var sent: seq<Reply>
    var attempts: nat
    var calls: seq<Call>
    var gauge: seq<GaugeOp>
    var hooks: nat

    /** The state as a value. */
    ghost function View(): (s: Stream)
      reads this
    {
      Stream(phase, running, ctx, reqHeader, reqBody, respHeader, respBody, sent, attempts, calls, gauge, hooks)
    }

    constructor (env: Env)
      ensures this.env == env && View() == FRESH
    {
      this.env := env;
      phase, running := Phase.RequestReceived, false;
      ctx := Ctx(false, false, false, [], map[], map[], map[], map[], None, "", "", 0, false);
      reqHeader, reqBody, respHeader, respBody := None, [], None, [];
      sent, attempts, calls, gauge, hooks := [], 0, [], [], 0;
    }

    /** srv.Send: the attempt counts whether or not it succeeds. */
    method Send(r: Reply) returns (ok: bool)
      modifies this`sent, this`attempts
      ensures ok == env.sendOk(old(attempts)) && attempts == old(attempts) + 1
      ensures sent == if ok then old(sent) + [r] else old(sent)
    {
      ok := env.sendOk(attempts);
      attempts := attempts + 1;
      if ok { sent := sent + [r]; }
    }

    /** Sends a due header reply and, once it is out, moves the phase. */
    method SendHeader(r: Reply, next: Phase) returns (ok: bool)
      requires HeadersTyped(View()) && HeaderDue(View()) && r == DueHeader(View())
      requires next == HeaderSent(View()).phase
      modifies this
      ensures Segment(env, old(View()), View(), ok)
      ensures ok ==> View() == HeaderSent(old(View()))
    {
      hide Segment, HeadersTyped, HeaderDue, Pass, PassOk;
      ghost var s := View();
      HeaderSegment(env, s);
      ok := Send(r);
      if ok { phase := next; }
    }

    /** The loop over the request body replies: it stops at the first failed send. */
    method SendEachRequestBody(q: seq<Reply>) returns (ok: bool, ghost k: nat)
      modifies this`sent, this`attempts
      ensures k == Delivered(env, old(attempts), |q|) <= |q| && ok == (k == |q|)
      ensures sent == old(sent) + q[..k]
      ensures attempts == old(attempts) + (if ok then k else k + 1)
    {
      var i := 0;
      k := 0;
      while i < |q|
        invariant 0 <= i <= |q| && k == i
        invariant sent == old(sent) + q[..i]
        invariant attempts == old(attempts) + i
        invariant Delivered(env, old(attempts), |q|) == i + Delivered(env, attempts, |q| - i)
      {
        ok := Send(q[i]);
        if !ok { return; }
        assert q[..i + 1] == q[..i] + [q[i]];
        i := i + 1;
        k := i;
      }
      ok := true;
    }

    /** The loop over the response body replies: the end-of-stream reply moves the phase. */
    method SendEachResponseBody(q: seq<Reply>) returns (ok: bool, ghost k: nat)
      modifies this`sent, this`attempts, this`phase
      ensures k == Delivered(env, old(attempts), |q|) <= |q| && ok == (k == |q|)
      ensures sent == old(sent) + q[..k]
      ensures attempts == old(attempts) + (if ok then k else k + 1)
      ensures phase == (if EndIn(q[..k]) then BodyResponseResponsesComplete else old(phase))
    {
      hide EndIn;
      EndInNone();
      var i := 0;
      k := 0;
      while i < |q|
        invariant 0 <= i <= |q| && k == i
        invariant sent == old(sent) + q[..i]
        invariant attempts == old(attempts) + i
        invariant Delivered(env, old(attempts), |q|) == i + Delivered(env, attempts, |q| - i)
        invariant phase == (if EndIn(q[..i]) then BodyResponseResponsesComplete else old(phase))
      {
        ok := Send(q[i]);
        if !ok { return; }
        EndInSnoc(q[..i], q[i]);
        assert q[..i + 1] == q[..i] + [q[i]];
        if EndsResponse(q[i]) {
          phase := BodyResponseResponsesComplete;
        }
        i := i + 1;
        k := i;
      }
      ok := true;
    }

    /** Sends the due request body replies; once all are out the request counts as running. */
    method SendRequestBodies() returns (ok: bool)
      requires !HeaderDue(View()) && RequestBodyDue(View())
      modifies this
      ensures Segment(env, old(View()), View(), ok)
      ensures ok ==> View() == RequestBodySent(old(View()))
    {
      ghost var s := View();
      hide Segment, HeaderDue, RequestBodyDue, Delivered;
      ghost var k;
      ok, k := SendEachRequestBody(reqBody);
      RequestBodySegment(env, s, k);
      if !ok { return; }
      assert s.reqBody[..k] == s.reqBody;
      phase := BodyRequestResponsesComplete;
      gauge := gauge + [Inc(ctx.model)];
      running := true;
      // dump the replies so a new stream message can begin
      reqBody := [];
    }

    /** Sends the due response body replies. */
    method SendResponseBodies() returns (ok: bool)
      requires !HeaderDue(View()) && ResponseBodyDue(View())
      modifies this
      ensures Segment(env, old(View()), View(), ok)
      ensures ok ==> View() == ResponseBodySent(old(View()))
    {
      ghost var s := View();
      hide Segment, HeaderDue, ResponseBodyDue, Delivered, EndIn;
      ghost var k;
      ok, k := SendEachResponseBody(respBody);
      ResponseBodySegment(env, s, k);
      if !ok { return; }
      assert s.respBody[..k] == s.respBody;
      // dump the replies so a new stream message can begin
      respBody := [];
    }

    /** Sends whatever is due, in the order header, body, and tells whether every send succeeded. */
    method UpdateStateAndSendIfNeeded() returns (ok: bool)
      requires HeadersTyped(View())
      modifies this
      ensures View() == Pass(env, old(View()))
      ensures ok == PassOk(env, old(View()))
    {
      hide Pass, PassOk;
      if phase == Phase.RequestReceived && reqHeader.Some? && ctx.sawHeaders {
        ok := SendHeader(reqHeader.value, HeaderRequestResponseComplete);
        if !ok { return; }
      }
      if (phase == HeaderRequestResponseComplete || (phase == Phase.RequestReceived && !ctx.sawHeaders))
         && |reqBody| > 0 {
        ok := SendRequestBodies();
        if !ok { return; }
      }
      if phase == ResponseReceived && respHeader.Some? {
        ok := SendHeader(respHeader.value, HeaderResponseResponseComplete);
        if !ok { return; }
      }
      if phase == HeaderResponseResponseComplete && |respBody| > 0 {
        ok := SendResponseBodies();
        if !ok { return; }
      }
      IdlePass(env, View());
      ok := true;
    }

    /** A request body chunk is buffered; the last one completes the request. */
    method ReceiveRequestBody(chunk: Bytes, eos: bool) returns (err: Option<ErrCode>)
      modifies this
      ensures Absorbed(View(), err) == Absorb(env, old(View()), RequestBody(chunk, eos))
    {
      hide HandleWholeRequest;
      ghost var whole := ctx.body + chunk;
      ctx := ctx.(body := ctx.body + chunk);
      err := None;
      if eos {
        err := CompleteRequest();
        WholeRequestIgnoresBuffer(env, old(View()), whole);
      }
    }

    /** The buffered request: decode it, let the director route it, queue the replies. */
    method CompleteRequest() returns (err: Option<ErrCode>)
      modifies this
      ensures Absorbed(View(), err) == HandleWholeRequest(env, old(View()), old(ctx.body))
    {
      var decoded := env.decode(ctx.body, ctx.doc);
      if decoded.None? { return Some(BadRequest); }
      // body stream complete: the response starts with an empty buffer
      var view := RequestView(ctx.headers, decoded.value, ctx.metadata);
      var r := env.route(|calls|, view);
      calls := calls + [HandleRequest(view)];
      ctx := ctx.(body := [], target := r.pod, endpoint := r.endpoint, model := r.model,
                  headers := r.headers, doc := r.doc);
      if r.err.Some? { return r.err; }
      var encoded := env.encode(ctx.doc);
      if encoded.None? { return None; }
      ctx := ctx.(size := |encoded.value|);
      reqHeader := Some(RequestHeaderReply(ctx.endpoint, ctx.size, ctx.headers));
      reqBody := RequestReplies(env.split(encoded.value, true));
      err := None;
    }

    /** Response headers: note the status and the content type, then queue the header reply. */
    method ReceiveResponseHeaders(fields: seq<Field>)
      modifies this
      ensures View() == AbsorbResponseHeaders(old(View()), fields)
    {
      hide AnyBadStatus, AnyEventStream;
      var badStatus, eventStream := ctx.errStatus, ctx.streaming;
      AnyNone();
      for i := 0 to |fields|
        invariant View() == old(View())
        invariant badStatus == (ctx.errStatus || AnyBadStatus(fields[..i]))
        invariant eventStream == (ctx.streaming || AnyEventStream(fields[..i]))
      {
        AnySnoc(fields[..i], fields[i]);
        assert fields[..i + 1] == fields[..i] + [fields[i]];
        if fields[i].key == "status" && fields[i].value != "200" {
          badStatus := true;
        } else if fields[i].key == "content-type" && Contains(fields[i].value, "text/event-stream") {
          eventStream := true;
        }
      }
      assert fields[..|fields|] == fields;
      ctx := ctx.(errStatus := badStatus, streaming := eventStream);
      phase := ResponseReceived;
      calls := calls + [HandleResponseReceived];
      respHeader := Some(ResponseHeaderReply(fields));
    }

    /** A response body chunk: passed through when streaming, otherwise buffered until its end. */
    method ReceiveResponseBody(chunk: Bytes, eos: bool)
      modifies this
      ensures View() == AbsorbResponseBody(env, old(View()), chunk, eos)
    {
      hide HandleWholeResponse;
      if ctx.streaming {
        calls := calls + [HandleResponseBodyStreaming(chunk)];
        if eos {
          ctx := ctx.(complete := true);
          hooks := hooks + 1;
        }
        respBody := ResponseReplies(env.split(chunk, eos));
      } else {
        ghost var whole := ctx.body + chunk;
        ctx := ctx.(body := ctx.body + chunk);
        if eos {
          CompleteResponse();
          WholeResponseIgnoresBuffer(env, old(View()), whole);
        }
      }
    }

    /** The buffered response: decode and process it, or pass it through when it is not JSON. */
    method CompleteResponse()
      modifies this
      ensures View() == HandleWholeResponse(env, old(View()), old(ctx.body))
    {
      var decoded := env.decode(ctx.body, ctx.respDoc);
      if decoded.None? {
        respBody := ResponseReplies(env.split(ctx.body, true));
        return;
      }
      var r := env.onResponse(|calls|, decoded.value);
      ctx := ctx.(respDoc := decoded.value, complete := ctx.complete || r.completed);
      if r.completed { hooks := hooks + 1; }
      if r.payload.Some? {
        respBody := ResponseReplies(env.split(r.payload.value, true));
      }
    }

    /** Request headers: make sure of a request id, then let the header helper look at them. */
    method ReceiveRequestHeaders(requestId: string, freshId: string, fields: seq<Field>, eos: bool)
      returns (err: Option<ErrCode>)
      modifies this
      ensures Absorbed(View(), err) == AbsorbRequestHeaders(env, old(View()), requestId, freshId, fields, eos)
    {
      if requestId == "" {
        ctx := ctx.(headers := ctx.headers[REQUEST_ID_KEY := freshId]);
      }
      var r := env.onHeaders(fields, eos, ctx.headers);
      ctx := ctx.(sawHeaders := true, headers := r.headers);
      if r.early.Some? {
        ctx := ctx.(endpoint := r.early.value);
        reqHeader := Some(RequestHeaderReply(ctx.endpoint, ctx.size, ctx.headers));
      }
      err := r.err;
    }

    /** The switch of the receive loop. */
    method Receive(m: Msg) returns (err: Option<ErrCode>)
      modifies this
      ensures Absorbed(View(), err) == Absorb(env, old(View()), m)
    {
      hide AbsorbRequestHeaders, AbsorbResponseHeaders, AbsorbResponseBody, HandleWholeRequest;
      err := None;
      match m
      case RequestHeaders(requestId, freshId, fields, eos) =>
        err := ReceiveRequestHeaders(requestId, freshId, fields, eos);
      case RequestBody(chunk, eos) =>
        err := ReceiveRequestBody(chunk, eos);
      case ResponseHeaders(fields) =>
        ReceiveResponseHeaders(fields);
      case ResponseBody(chunk, eos) =>
        ReceiveResponseBody(chunk, eos);
      case RequestTrailers =>
      case ResponseTrailers =>
    }

    /** One turn of the loop: receive, then either the immediate error reply or a sending pass. */
    method Turn(m: Req) returns (exit: Option<Exit>)
      requires HeadersTyped(View())
      modifies this
      ensures Outcome(View(), exit) == Step(env, old(View()), m)
      ensures HeadersTyped(View())
    {
      ghost var s := View();
      StepTyped(env, s, m);
      AbsorbTyped(env, s.(ctx := s.ctx.(metadata := m.metadata)), m.msg);
      hide HeadersTyped, Absorb, Pass, PassOk;
      ctx := ctx.(metadata := m.metadata);
      var err := Receive(m.msg);
      if err.Some? {
        exit := SendError(err.value);
      } else {
        var ok := UpdateStateAndSendIfNeeded();
        exit := if ok then None else Some(Exit.SendFailed);
      }
    }

    /** The immediate error reply; the stream ends whether or not it can be sent. */
    method SendError(e: ErrCode) returns (exit: Option<Exit>)
      modifies this
      ensures Outcome(View(), exit) == ReplyError(env, old(View()), e)
    {
      var status := StatusOf(e);
      if status.None? { return Some(Unreportable); }
      var ok := Send(ImmediateReply(status.value));
      exit := Some(if ok then Rejected else Exit.SendFailed);
    }

    /** The deferred function: settle the gauge and force the completion hook if it never ran. */
    method Close()
      modifies this
      ensures View() == Teardown(old(View()))
    {
      if running { gauge := gauge + [Dec(ctx.model)]; }
      if ctx.target.Some? && !ctx.complete { hooks := hooks + 1; }
    }
  }

  /** Process, from the first message to its return. */
  method Serve(env: Env, ms: seq<Req>, end: Exit) returns (r: RequestContext, exit: Exit)
    ensures fresh(r) && r.env == env
    ensures Outcome(r.View(), Some(exit)) == Process(env, ms, end)
  {
    r := new RequestContext(env);
    hide Step;
    exit := end;
    var i := 0;
    while i < |ms|
      invariant 0 <= i <= |ms| && fresh(r) && r.env == env && HeadersTyped(r.View()) && exit == end
      invariant Run(env, FRESH, ms) == Run(env, r.View(), ms[i..])
    {
      var done := r.Turn(ms[i]);
      assert ms[i..][0] == ms[i] && ms[i..][1..] == ms[i + 1..];
      if done.Some? {
        exit := done.value;
        r.Close();
        return;
      }
      i := i + 1;
    }
    r.Close();
  }
}
