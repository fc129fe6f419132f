/**
  One whole conversation with Envoy, from the request headers to the end of the stream: every reply, every
  director call, every move of the gauge and every run of the hook, in terms of the messages and of what the
  collaborators answer. And, over every run, where a request header reply comes from.
*/
module ExtProcConversation {
  import opened Basics
  import opened ExtProc
  import opened ExtProcOrder
  import opened ExtProcChunking
  import opened ExtProcBodies

  // ---------- The request ----------

  /** The headers the helper is given for the first message: a request id is drawn if there is none. */
  function FirstHeaders(m: Msg): Headers
    requires m.RequestHeaders?
  {
    if m.requestId == "" then map["x-request-id" := m.freshId] else map[]
  }

  function Asked(env: Env, m: Msg): HeadersResult
    requires m.RequestHeaders?
  {
    env.onHeaders(m.fields, m.eos, FirstHeaders(m))
  }

  /** The stream after its first header message: an early header reply, if the helper made one, is out. */
  function Greeted(env: Env, h: Req): Stream
    requires h.msg.RequestHeaders?
  {
    var e := Asked(env, h.msg);
    var s := FRESH.(ctx := FRESH.ctx.(sawHeaders := true, headers := e.headers, metadata := h.metadata));
    if e.early.None? then s
    else
      var r := RequestHeaderReply(e.early.value, 0, e.headers);
      s.(ctx := s.ctx.(endpoint := e.early.value), reqHeader := Some(r),
         phase := HeaderRequestResponseComplete, sent := [r], attempts := 1)
  }

  lemma PassAll(env: Env, s: Stream)
    requires SendsSucceed(env)
    ensures PassOk(env, s) && Pass(env, s) == AfterSends(s, |Due(s)|) && Due(s)[..|Due(s)|] == Due(s)
  {
    AllDelivered(env, s.attempts, |Due(s)|);
    hide AfterSends, Due;
  }

  lemma GreetingTurn(env: Env, h: Req)
    requires SendsSucceed(env) && h.msg.RequestHeaders? && Asked(env, h.msg).err.None?
    ensures Step(env, FRESH, h) == Outcome(Greeted(env, h), None)
  {
    var a := Absorb(env, FRESH.(ctx := FRESH.ctx.(metadata := h.metadata)), h.msg);
    PassAll(env, a.st);
    hide EndIn;
  }

  /** What the director is asked, and answers. */
  function Question(env: Env, h: Req, d: Json, last: Req): RequestView
    requires h.msg.RequestHeaders?
  {
    RequestView(Asked(env, h.msg).headers, d, last.metadata)
  }

  /** The header reply of the conversation: the early one, or the one that follows from the director's answer. */
  function HeaderAnswer(env: Env, h: Req, r: RouteResult, size: nat): Reply
    requires h.msg.RequestHeaders?
  {
    var e := Asked(env, h.msg);
    if e.early.Some? then RequestHeaderReply(e.early.value, 0, e.headers)
    else RequestHeaderReply(r.endpoint, size, r.headers)
  }

  /** What a stream with a routed request has sent, asked, counted and run so far; nothing is queued. */
  predicate Booked(s: Stream, sent: seq<Reply>, calls: seq<Call>, r: RouteResult, hooks: nat)
  {
    && s.running && s.reqBody == [] && s.respBody == [] && s.sent == sent && s.calls == calls
    && s.gauge == [Inc(r.model)] && s.ctx.target == r.pod && s.ctx.model == r.model
    && s.hooks == hooks && (s.ctx.complete <==> hooks == 1)
  }

  /** No response so far. */
  predicate Unanswered(s: Stream)
  {
    s.phase == BodyRequestResponsesComplete && s.respHeader.None? && !s.ctx.streaming && s.ctx.body == []
    && s.ctx.respDoc == map[]
  }

  /** The replies to the request of the conversation. */
  function RequestAnswer(env: Env, h: Req, r: RouteResult, b: Bytes): seq<Reply>
    requires h.msg.RequestHeaders?
  {
    [HeaderAnswer(env, h, r, |b|)] + RequestReplies(env.split(b, true))
  }

  /** What the last chunk of a request queues, before anything of it is sent. */
  lemma QueuedAnswer(env: Env, h: Req, m: Req, d: Json, b: Bytes)
    requires env.Contract() && h.msg.RequestHeaders?
    requires m.msg.RequestBody? && m.msg.eos && env.decode(m.msg.chunk, map[]) == Some(d)
    requires env.route(0, Question(env, h, d, m)).err.None?
    requires env.encode(env.route(0, Question(env, h, d, m)).doc) == Some(b)
    ensures var s, view := Greeted(env, h), Question(env, h, d, m);
            var a, r := Absorb(env, s.(ctx := s.ctx.(metadata := m.metadata)), m.msg), env.route(0, view);
            a.err.None?
            && a.st == s.(ctx := s.ctx.(metadata := m.metadata, target := r.pod, endpoint := r.endpoint,
                                        model := r.model, headers := r.headers, doc := r.doc, size := |b|),
                          calls := [HandleRequest(view)],
                          reqHeader := Some(RequestHeaderReply(r.endpoint, |b|, r.headers)),
                          reqBody := RequestReplies(env.split(b, true)))
            && a.st.reqBody != []
  {
    var s := Greeted(env, h);
    assert s.ctx.body + m.msg.chunk == m.msg.chunk;
    SplitTyped(env, b, true);
    hide RequestReplies, GoodSplit;
  }

  lemma ServedTurn(env: Env, h: Req, m: Req, d: Json, b: Bytes)
    requires env.Contract() && SendsSucceed(env) && h.msg.RequestHeaders?
    requires m.msg.RequestBody? && m.msg.eos && env.decode(m.msg.chunk, map[]) == Some(d)
    requires env.route(0, Question(env, h, d, m)).err.None?
    requires env.encode(env.route(0, Question(env, h, d, m)).doc) == Some(b)
    ensures var view := Question(env, h, d, m);
            var o, r := Step(env, Greeted(env, h), m), env.route(0, view);
            o.exit.None? && Booked(o.st, RequestAnswer(env, h, r, b), [HandleRequest(view)], r, 0) && Unanswered(o.st)
  {
    QueuedAnswer(env, h, m, d, b);
    var s := Greeted(env, h);
    var a := Absorb(env, s.(ctx := s.ctx.(metadata := m.metadata)), m.msg);
    hide Absorb, RequestReplies;
    PassAll(env, a.st);
    hide EndIn, Pass, PassOk;
    assert [] + ([a.st.reqHeader.value] + a.st.reqBody) == [a.st.reqHeader.value] + a.st.reqBody;
  }

  /**
    The request side: after the headers and any chunks that join to a document which is routed and marshalled,
    exactly one header reply and the marshalled body are out, the header reply with the endpoint, size and headers
    of the director's answer unless the helper had one early; the director was asked once, about the helper's
    headers, the decoded document and the last metadata; and the request counts for the model it was routed to.
  */
  lemma {:induction false} RequestServed(env: Env, h: Req, ms: seq<Req>, d: Json, b: Bytes)
    requires env.Contract() && SendsSucceed(env)
    requires h.msg.RequestHeaders? && Asked(env, h.msg).err.None? && ChunkRun(ms)
    requires env.decode(WholeBody(ms), map[]) == Some(d)
    requires env.route(0, Question(env, h, d, ms[|ms| - 1])).err.None?
    requires env.encode(env.route(0, Question(env, h, d, ms[|ms| - 1])).doc) == Some(b)
    ensures var view := Question(env, h, d, ms[|ms| - 1]);
            var o, r := Run(env, FRESH, [h] + ms), env.route(0, view);
            o.exit.None? && Booked(o.st, RequestAnswer(env, h, r, b), [HandleRequest(view)], r, 0) && Unanswered(o.st)
  {
    GreetingTurn(env, h);
    assert ([h] + ms)[0] == h && ([h] + ms)[1..] == ms;
    hide Step, Greeted, Booked, Unanswered;
    StepSettles(env, FRESH, h);
    ChunksRefineOneShot(env, Greeted(env, h), ms);
    ServedTurn(env, h, OneShot(ms), d, b);
  }

  // ---------- Refused requests ----------

  /** The early header reply, if the helper made one. */
  function EarlyAnswer(env: Env, h: Req): seq<Reply>
    requires h.msg.RequestHeaders?
  {
    var e := Asked(env, h.msg);
    if e.early.Some? then [RequestHeaderReply(e.early.value, 0, e.headers)] else []
  }

  /** The last reply tells the error by its HTTP status; an error without one is not told. */
  predicate Refused(o: Outcome, before: seq<Reply>, e: ErrCode)
  {
    match e
    case ResourceExhausted => o.exit == Some(Rejected) && o.st.sent == before + [ImmediateReply(429)]
    case Internal => o.exit == Some(Rejected) && o.st.sent == before + [ImmediateReply(500)]
    case ServiceUnavailable => o.exit == Some(Rejected) && o.st.sent == before + [ImmediateReply(503)]
    case BadRequest => o.exit == Some(Rejected) && o.st.sent == before + [ImmediateReply(400)]
    case BadConfiguration => o.exit == Some(Rejected) && o.st.sent == before + [ImmediateReply(404)]
    case Unmapped => o.exit == Some(Unreportable) && o.st.sent == before
  }

  lemma ErrorTurn(env: Env, s: Stream, m: Req, e: ErrCode)
    requires SendsSucceed(env) && Absorb(env, s.(ctx := s.ctx.(metadata := m.metadata)), m.msg).err == Some(e)
    ensures var a := Absorb(env, s.(ctx := s.ctx.(metadata := m.metadata)), m.msg).st;
            && Refused(Step(env, s, m), a.sent, e)
            && Step(env, s, m).st == a.(sent := Step(env, s, m).st.sent, attempts := Step(env, s, m).st.attempts)
  {
    hide Absorb;
  }

  /** Headers the helper refuses: the error is the only reply. */
  lemma {:induction false} HeadersRefused(env: Env, h: Req, ms: seq<Req>, e: ErrCode, end: Exit)
    requires SendsSucceed(env) && h.msg.RequestHeaders? && Asked(env, h.msg).err == Some(e)
    ensures var o := Process(env, [h] + ms, end);
            Refused(o, [], e) && o.st.calls == [] && o.st.gauge == [] && o.st.hooks == 0
  {
    ErrorTurn(env, FRESH, h, e);
    hide Step;
    assert ([h] + ms)[0] == h && ([h] + ms)[1..] == ms;
    assert Run(env, FRESH, [h] + ms) == Step(env, FRESH, h);
  }

  lemma RefusedTurn(env: Env, h: Req, m: Req, e: ErrCode)
    requires SendsSucceed(env) && h.msg.RequestHeaders? && m.msg.RequestBody? && m.msg.eos
    requires match env.decode(m.msg.chunk, map[])
             case None => e == BadRequest
             case Some(d) => env.route(0, Question(env, h, d, m)).err == Some(e)
    ensures var d, o := env.decode(m.msg.chunk, map[]), Step(env, Greeted(env, h), m);
            && Refused(o, EarlyAnswer(env, h), e) && !o.st.running && o.st.gauge == [] && o.st.hooks == 0
            && !o.st.ctx.complete
            && (d.None? ==> o.st.calls == [] && o.st.ctx.target.None?)
            && (d.Some? ==>
                  && o.st.calls == [HandleRequest(Question(env, h, d.value, m))]
                  && o.st.ctx.target == env.route(0, Question(env, h, d.value, m)).pod)
  {
    var s := Greeted(env, h);
    assert s.ctx.body + m.msg.chunk == m.msg.chunk;
    ErrorTurn(env, s, m, e);
    hide Step, Refused;
  }

  /**
    A request that is no JSON, or that the director refuses: the early header reply if there was one, then the
    error, and the stream ends, whatever messages follow. Nothing is counted; the hook runs for a pod that was
    scheduled before the refusal.
  */
  lemma {:induction false} RequestRefused(env: Env, h: Req, ms: seq<Req>, more: seq<Req>, e: ErrCode, end: Exit)
    requires SendsSucceed(env) && h.msg.RequestHeaders? && Asked(env, h.msg).err.None? && ChunkRun(ms)
    requires match env.decode(WholeBody(ms), map[])
             case None => e == BadRequest
             case Some(d) => env.route(0, Question(env, h, d, ms[|ms| - 1])).err == Some(e)
    ensures var d, o := env.decode(WholeBody(ms), map[]), Process(env, [h] + ms + more, end);
            && Refused(o, EarlyAnswer(env, h), e) && o.st.gauge == []
            && (d.None? ==> o.st.calls == [] && o.st.hooks == 0)
            && (d.Some? ==>
                  var view := Question(env, h, d.value, ms[|ms| - 1]);
                  o.st.calls == [HandleRequest(view)] && o.st.hooks == if env.route(0, view).pod.Some? then 1 else 0)
  {
    GreetingTurn(env, h);
    RunAppend(env, FRESH, [h] + ms, more);
    assert ([h] + ms)[0] == h && ([h] + ms)[1..] == ms;
    hide Step, Greeted;
    StepSettles(env, FRESH, h);
    ChunksRefineOneShot(env, Greeted(env, h), ms);
    RefusedTurn(env, h, OneShot(ms), e);
    assert Run(env, FRESH, [h] + ms) == Step(env, Greeted(env, h), OneShot(ms));
    hide Run;
    assert Run(env, FRESH, [h] + ms).exit.Some?;
  }

  // ---------- The response ----------

  lemma OpeningTurn(env: Env, s: Stream, m: Req, sent: seq<Reply>, calls: seq<Call>, r: RouteResult)
    requires SendsSucceed(env) && m.msg.ResponseHeaders? && Booked(s, sent, calls, r, 0) && Unanswered(s)
    ensures var o := Step(env, s, m);
            && o.exit.None?
            && Booked(o.st, sent + [ResponseHeaderReply(m.msg.fields)], calls + [HandleResponseReceived], r, 0)
            && Answering(o.st) && o.st.ctx.streaming == AnyEventStream(m.msg.fields)
            && o.st.ctx.body == [] && o.st.ctx.respDoc == map[]
  {
    hide AnyEventStream, AnyBadStatus;
    var a := Absorb(env, s.(ctx := s.ctx.(metadata := m.metadata)), m.msg);
    PassAll(env, a.st);
    hide EndIn, Pass, PassOk;
  }

  /** Did the response handler run the hook? */
  function HandlerHooks(env: Env, calls: nat, whole: Bytes): nat
  {
    match env.decode(whole, map[])
    case None => 0
    case Some(d) => if env.onResponse(calls, d).completed then 1 else 0
  }

  lemma QueuedResponse(env: Env, s: Stream, m: Req, sent: seq<Reply>, calls: seq<Call>, r: RouteResult)
    requires m.msg.ResponseBody? && m.msg.eos && Booked(s, sent, calls, r, 0)
    requires !s.ctx.streaming && s.ctx.body == [] && s.ctx.respDoc == map[]
    ensures var a := Absorb(env, s.(ctx := s.ctx.(metadata := m.metadata)), m.msg);
            && a.err.None? && a.st.phase == s.phase
            && a.st.respBody == FinalReplies(env, |calls|, map[], m.msg.chunk)
            && Booked(a.st.(respBody := []), sent, calls, r, HandlerHooks(env, |calls|, m.msg.chunk))
  {
    assert s.ctx.body + m.msg.chunk == m.msg.chunk;
    hide ResponseReplies;
  }

  lemma BufferedTurn(env: Env, s: Stream, m: Req, sent: seq<Reply>, calls: seq<Call>, r: RouteResult)
    requires env.Contract() && SendsSucceed(env) && m.msg.ResponseBody? && m.msg.eos
    requires Booked(s, sent, calls, r, 0) && Answering(s)
    requires !s.ctx.streaming && s.ctx.body == [] && s.ctx.respDoc == map[]
    ensures var o := Step(env, s, m);
            && o.exit.None?
            && Booked(o.st, sent + FinalReplies(env, |calls|, map[], m.msg.chunk), calls, r,
                      HandlerHooks(env, |calls|, m.msg.chunk))
  {
    QueuedResponse(env, s, m, sent, calls, r);
    var a := Absorb(env, s.(ctx := s.ctx.(metadata := m.metadata)), m.msg);
    hide Absorb, FinalReplies, HandlerHooks;
    PassAll(env, a.st);
    hide EndIn, Pass, PassOk;
    assert sent + [] == sent;
  }

  function StreamedTexts(ms: seq<Req>): seq<Call>
  {
    if ms == [] then []
    else
      (if ms[0].msg.ResponseBody? then [HandleResponseBodyStreaming(ms[0].msg.chunk)] else [])
      + StreamedTexts(ms[1..])
  }

  lemma StreamTurn(env: Env, s: Stream, m: Req, sent: seq<Reply>, calls: seq<Call>, r: RouteResult)
    requires env.Contract() && SendsSucceed(env) && m.msg.ResponseBody?
    requires Booked(s, sent, calls, r, 0) && Answering(s) && s.ctx.streaming
    ensures var o := Step(env, s, m);
            && o.exit.None?
            && Booked(o.st, sent + ResponseReplies(env.split(m.msg.chunk, m.msg.eos)),
                      calls + [HandleResponseBodyStreaming(m.msg.chunk)], r, if m.msg.eos then 1 else 0)
            && (!m.msg.eos ==> Answering(o.st) && o.st.ctx.streaming)
  {
    var s1 := s.(ctx := s.ctx.(metadata := m.metadata));
    var a := Absorb(env, s1, m.msg);
    var q := ResponseReplies(env.split(m.msg.chunk, m.msg.eos));
    BodyTyped(env, m.msg.chunk, m.msg.eos);
    assert a.err.None? && a.st.respBody == q && a.st.phase == s.phase && a.st.ctx.streaming;
    hide ResponseReplies;
    PassAll(env, a.st);
    hide EndIn, Pass, PassOk;
    assert sent + [] == sent;
  }

  lemma {:induction false} StreamRun(
    env: Env, s: Stream, ms: seq<Req>, sent: seq<Reply>, calls: seq<Call>, r: RouteResult)
    requires env.Contract() && SendsSucceed(env) && ResponseChunkRun(ms)
    requires Booked(s, sent, calls, r, 0) && Answering(s) && s.ctx.streaming
    ensures var o := Run(env, s, ms);
            o.exit.None? && Booked(o.st, sent + StreamedReplies(env, ms), calls + StreamedTexts(ms), r, 1)
    decreases |ms|
  {
    hide Step, Booked, Answering, ResponseReplies;
    var m, rest := ms[0], ms[1..];
    var q, c := ResponseReplies(env.split(m.msg.chunk, m.msg.eos)), [HandleResponseBodyStreaming(m.msg.chunk)];
    StreamTurn(env, s, m, sent, calls, r);
    var o := Step(env, s, m);
    assert StreamedReplies(env, ms) == q + StreamedReplies(env, rest) && StreamedTexts(ms) == c + StreamedTexts(rest);
    if rest == [] {
      assert q + [] == q && c + [] == c;
      assert Run(env, o.st, rest) == Outcome(o.st, None);
    } else {
      StreamRun(env, o.st, rest, sent + q, calls + c, r);
      ConcatAssociative(sent, q, StreamedReplies(env, rest));
      ConcatAssociative(calls, c, StreamedTexts(rest));
    }
  }

  /** The replies to the chunks of a response, event stream or not; one director call came before its headers. */
  function ResponseAnswer(env: Env, a: Req, rs: seq<Req>): seq<Reply>
    requires a.msg.ResponseHeaders?
  {
    if AnyEventStream(a.msg.fields) then StreamedReplies(env, rs) else FinalReplies(env, 2, map[], Received(rs))
  }

  function ResponseCalls(a: Req, rs: seq<Req>): seq<Call>
    requires a.msg.ResponseHeaders?
  {
    [HandleResponseReceived] + if AnyEventStream(a.msg.fields) then StreamedTexts(rs) else []
  }

  function ResponseHooks(env: Env, a: Req, rs: seq<Req>): nat
    requires a.msg.ResponseHeaders?
  {
    if AnyEventStream(a.msg.fields) then 1 else HandlerHooks(env, 2, Received(rs))
  }

  lemma {:induction false} ResponseServed(
    env: Env, s: Stream, a: Req, rs: seq<Req>, sent: seq<Reply>, c: Call, r: RouteResult)
    requires env.Contract() && SendsSucceed(env) && a.msg.ResponseHeaders? && ResponseChunkRun(rs)
    requires Booked(s, sent, [c], r, 0) && Unanswered(s)
    ensures var o := Run(env, s, [a] + rs);
            && o.exit.None?
            && Booked(o.st, sent + ([ResponseHeaderReply(a.msg.fields)] + ResponseAnswer(env, a, rs)),
                      [c] + ResponseCalls(a, rs), r, ResponseHooks(env, a, rs))
  {
    hide Step, Booked, Unanswered, AnyEventStream, HandlerHooks, FinalReplies, StreamedReplies, StreamedTexts;
    assert ([a] + rs)[0] == a && ([a] + rs)[1..] == rs;
    var header := [ResponseHeaderReply(a.msg.fields)];
    var asked := [c] + [HandleResponseReceived];
    OpeningTurn(env, s, a, sent, [c], r);
    var o := Step(env, s, a);
    ConcatAssociative(sent, header, ResponseAnswer(env, a, rs));
    if AnyEventStream(a.msg.fields) {
      StreamRun(env, o.st, rs, sent + header, asked, r);
      ConcatAssociative([c], [HandleResponseReceived], StreamedTexts(rs));
    } else {
      StepSettles(env, s, a);
      ResponseChunksRefineOneShot(env, o.st, rs);
      BufferedTurn(env, o.st, OneShotResponse(rs), sent + header, asked, r);
      assert [HandleResponseReceived] + [] == [HandleResponseReceived];
    }
  }

  // ---------- The whole ----------

  /**
    One whole conversation. Envoy gets the header reply, the marshalled request body, the response headers as it
    sent them, and the response: an event stream chunk by chunk, another response as its handler leaves it. The
    gauge of the routed model goes up and down once. The hook runs once if there is a pod to run it for, and runs
    without one only if the response was completed.
  */
  lemma {:induction false} WholeConversation(
    env: Env, h: Req, ms: seq<Req>, d: Json, b: Bytes, a: Req, rs: seq<Req>, end: Exit)
    requires env.Contract() && SendsSucceed(env)
    requires h.msg.RequestHeaders? && Asked(env, h.msg).err.None? && ChunkRun(ms)
    requires env.decode(WholeBody(ms), map[]) == Some(d)
    requires env.route(0, Question(env, h, d, ms[|ms| - 1])).err.None?
    requires env.encode(env.route(0, Question(env, h, d, ms[|ms| - 1])).doc) == Some(b)
    requires a.msg.ResponseHeaders? && ResponseChunkRun(rs)
    ensures var view := Question(env, h, d, ms[|ms| - 1]);
            var o, r := Process(env, [h] + ms + ([a] + rs), end), env.route(0, view);
            && o.exit == Some(end)
            && o.st.sent == RequestAnswer(env, h, r, b)
                            + ([ResponseHeaderReply(a.msg.fields)] + ResponseAnswer(env, a, rs))
            && o.st.calls == [HandleRequest(view)] + ResponseCalls(a, rs)
            && o.st.gauge == [Inc(r.model), Dec(r.model)]
            && o.st.hooks == if ResponseHooks(env, a, rs) == 1 || r.pod.Some? then 1 else 0
  {
    hide Run, Unanswered, RequestAnswer, ResponseAnswer, ResponseCalls;
    var view := Question(env, h, d, ms[|ms| - 1]);
    var r := env.route(0, view);
    RequestServed(env, h, ms, d, b);
    RunAppend(env, FRESH, [h] + ms, [a] + rs);
    ResponseServed(env, Run(env, FRESH, [h] + ms).st, a, rs, RequestAnswer(env, h, r, b), HandleRequest(view), r);
  }
}
