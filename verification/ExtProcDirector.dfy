/**
  What the director is told over a whole run: a small fold over the messages, which knows nothing of phases,
  queues and sends, gives every call with its exact argument.
*/
module ExtProcDirector {
  import opened Basics
  import opened ExtProc
  import opened ExtProcBodies

  /** What of the messages matters to later calls: `held` is the buffer, `known` the request headers. */
  datatype Memo = Memo(known: Headers, doc: Json, held: Bytes, streaming: bool, calls: seq<Call>)

  const NOTHING := Memo(map[], map[], [], false, [])

  /** The headers as given to the header helper: with a request id, drawn if the message has none. */
  function Identified(known: Headers, requestId: string, freshId: string): Headers
  {
    if requestId != "" then known else known["x-request-id" := freshId]
  }

  /** A message of a stream that goes on. */
  function Noted(env: Env, k: Memo, m: Req): Memo
  {
    match m.msg
    case RequestHeaders(id, freshId, fields, eos) =>
      k.(known := env.onHeaders(fields, eos, Identified(k.known, id, freshId)).headers)
    case RequestBody(chunk, eos) =>
      var held := k.held + chunk;
      if !eos then k.(held := held)
      else
        var d := env.decode(held, k.doc);
        if d.None? then k
        else
          var view := RequestView(k.known, d.value, m.metadata);
          var r := env.route(|k.calls|, view);
          k.(known := r.headers, doc := r.doc, held := [], calls := k.calls + [HandleRequest(view)])
    case ResponseHeaders(fields) =>
      k.(streaming := k.streaming || AnyEventStream(fields), calls := k.calls + [HandleResponseReceived])
    case ResponseBody(chunk, eos) =>
      if k.streaming then k.(calls := k.calls + [HandleResponseBodyStreaming(chunk)]) else k.(held := k.held + chunk)
    case _ => k
  }

  function Recalled(env: Env, k: Memo, ms: seq<Req>): Memo
    decreases |ms|
  {
    if ms == [] then k else Recalled(env, Noted(env, k, ms[0]), ms[1..])
  }

  function MemoOf(s: Stream): Memo { Memo(s.ctx.headers, s.ctx.doc, s.ctx.body, s.ctx.streaming, s.calls) }

  lemma TurnNoted(env: Env, s: Stream, m: Req)
    requires Step(env, s, m).exit.None?
    ensures MemoOf(Step(env, s, m).st) == Noted(env, MemoOf(s), m)
  {
    var s1 := s.(ctx := s.ctx.(metadata := m.metadata));
    var a := Absorb(env, s1, m.msg);
    assert a.err.None? && Step(env, s, m).st == Pass(env, a.st) by { hide Absorb, Pass, PassOk; }
    PassKeepsCtx(env, a.st);
    hide Pass, Step, Absorb, Noted;
    TakenNoted(env, s1, m);
  }

  lemma TakenNoted(env: Env, s: Stream, m: Req)
    requires s.ctx.metadata == m.metadata && Absorb(env, s, m.msg).err.None?
    ensures MemoOf(Absorb(env, s, m.msg).st) == Noted(env, MemoOf(s), m)
  {
    if m.msg.RequestBody? {
      BodyNoted(env, s, m);
    } else if m.msg.ResponseBody? {
      AnswerNoted(env, s, m);
    } else {
      HeadersNoted(env, s, m);
    }
  }

  lemma BodyNoted(env: Env, s: Stream, m: Req)
    requires s.ctx.metadata == m.metadata && Absorb(env, s, m.msg).err.None? && m.msg.RequestBody?
    ensures MemoOf(Absorb(env, s, m.msg).st) == Noted(env, MemoOf(s), m)
  {
    hide HandleWholeRequest;
    if m.msg.eos { RequestNoted(env, s, s.ctx.body + m.msg.chunk); }
  }

  lemma AnswerNoted(env: Env, s: Stream, m: Req)
    requires m.msg.ResponseBody?
    ensures MemoOf(Absorb(env, s, m.msg).st) == Noted(env, MemoOf(s), m)
  {
    hide HandleWholeResponse, ResponseReplies;
    if m.msg.eos && !s.ctx.streaming { ResponseNoted(env, s, s.ctx.body + m.msg.chunk); }
  }

  lemma HeadersNoted(env: Env, s: Stream, m: Req)
    requires !m.msg.RequestBody? && !m.msg.ResponseBody?
    ensures MemoOf(Absorb(env, s, m.msg).st) == Noted(env, MemoOf(s), m)
  {
    hide AnyEventStream, AnyBadStatus;
  }

  lemma RequestNoted(env: Env, s: Stream, whole: Bytes)
    requires HandleWholeRequest(env, s, whole).err.None?
    ensures var d, t := env.decode(whole, s.ctx.doc), HandleWholeRequest(env, s, whole).st;
            && d.Some?
            && var view := RequestView(s.ctx.headers, d.value, s.ctx.metadata);
               var r := env.route(|s.calls|, view);
               MemoOf(t) == Memo(r.headers, r.doc, [], s.ctx.streaming, s.calls + [HandleRequest(view)])
  {
    hide RequestReplies;
  }

  lemma ResponseNoted(env: Env, s: Stream, whole: Bytes)
    ensures MemoOf(HandleWholeResponse(env, s, whole)) == MemoOf(s).(held := whole)
  {
    hide ResponseReplies;
    match env.decode(whole, s.ctx.respDoc)
    case None =>
    case Some(d) =>
  }

  lemma {:induction false} RunNoted(env: Env, s: Stream, ms: seq<Req>)
    requires Run(env, s, ms).exit.None?
    ensures MemoOf(Run(env, s, ms).st) == Recalled(env, MemoOf(s), ms)
    decreases |ms|
  {
    hide Step, Noted, MemoOf;
    if ms == [] {
    } else {
      TurnNoted(env, s, ms[0]);
      RunNoted(env, Step(env, s, ms[0]).st, ms[1..]);
    }
  }

  /**
    On every live stream the director has been called exactly as the messages say: about each completed request
    with the headers known by then, its decoded body and its last metadata; once for each response announced; and
    with the text of each streamed chunk.
  */
  lemma {:induction false} DirectorCalls(env: Env, ms: seq<Req>)
    requires Run(env, FRESH, ms).exit.None?
    ensures Run(env, FRESH, ms).st.calls == Recalled(env, NOTHING, ms).calls
    ensures Run(env, FRESH, ms).st.ctx.body == Recalled(env, NOTHING, ms).held
  {
    hide Run, Recalled;
    RunNoted(env, FRESH, ms);
  }
}
