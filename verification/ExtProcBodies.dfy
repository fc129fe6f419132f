/**
  What becomes of the bytes: a complete request always leaves in the pass that completes it, and a
  response body reaches Envoy byte for byte, streamed or buffered.
*/
module ExtProcBodies {
  import opened Basics
  import opened ExtProc
  import opened ExtProcOrder
  import opened ExtProcChunking

  // ---------- Requests ----------

  ghost predicate SendsSucceed(env: Env) { forall i: nat :: env.sendOk(i) }

  lemma AllDelivered(env: Env, from: nat, n: nat)
    requires SendsSucceed(env)
    ensures Delivered(env, from, n) == n
    decreases n
  {
    assert env.sendOk(from);
    if n == 0 {
    } else {
      AllDelivered(env, from + 1, n - 1);
    }
  }

  lemma PassSendsAll(env: Env, s: Stream)
    requires SendsSucceed(env)
    ensures PassOk(env, s) && Pass(env, s).sent == s.sent + Due(s)
    ensures Pass(env, s).running == (s.running || RequestBodyDue(s))
  {
    AllDelivered(env, s.attempts, |Due(s)|);
    hide EndIn;
    assert Due(s)[..|Due(s)|] == Due(s);
  }

  /** How the header message leaves a fresh stream: nothing sent, or the early header reply sent. */
  lemma AfterHeaders(env: Env, h: Req)
    requires SendsSucceed(env) && h.msg.RequestHeaders? && Step(env, FRESH, h).exit.None?
    ensures var s := Step(env, FRESH, h).st;
            && s.ctx.sawHeaders && s.ctx.doc == map[] && s.ctx.body == [] && s.calls == [] && s.reqBody == []
            && !s.running
            && (|| (s.phase == Phase.RequestReceived && s.sent == [])
                || (s.phase == HeaderRequestResponseComplete && |s.sent| == 1 && s.sent[0].RequestHeaderReply?))
  {
    var a := Absorb(env, FRESH.(ctx := FRESH.ctx.(metadata := h.metadata)), h.msg);
    AllDelivered(env, a.st.attempts, |Due(a.st)|);
    hide EndIn;
  }

  /** The context after the director's answer. */
  function RoutedCtx(c: Ctx, r: RouteResult): Ctx
  {
    c.(body := [], target := r.pod, endpoint := r.endpoint, model := r.model, headers := r.headers, doc := r.doc)
  }

  /** The stream after a request that was decoded and routed: marshalled, its replies are queued. */
  lemma QueuedReplies(env: Env, s: Stream, whole: Bytes, d: Json)
    requires env.decode(whole, s.ctx.doc) == Some(d)
    requires env.route(|s.calls|, RequestView(s.ctx.headers, d, s.ctx.metadata)).err.None?
    ensures var view := RequestView(s.ctx.headers, d, s.ctx.metadata);
            var r := env.route(|s.calls|, view);
            var t := s.(ctx := RoutedCtx(s.ctx, r), calls := s.calls + [HandleRequest(view)]);
            HandleWholeRequest(env, s, whole)
            == match env.encode(r.doc)
               case None => Absorbed(t, None)
               case Some(b) =>
                 Absorbed(t.(ctx := t.ctx.(size := |b|),
                             reqHeader := Some(RequestHeaderReply(r.endpoint, |b|, r.headers)),
                             reqBody := RequestReplies(env.split(b, true))), None)
  {
    hide RequestReplies;
  }

  lemma BatchNotEmpty(env: Env, b: Bytes)
    requires env.Contract()
    ensures RequestReplies(env.split(b, true)) != []
  {
    SplitTyped(env, b, true);
  }

  /**
    A stream of an optional header message and any chunks, whose body decodes and is routed, with sends
    succeeding: the whole body batch is out after the last chunk, after one header reply exactly when
    headers were seen, which tells the director's answer unless it was out before. If marshalling fails instead,
    no body reply is sent and the stream stays open.
  */
  lemma RequestNeverStalls(env: Env, hs: seq<Req>, ms: seq<Req>, d: Json)
    requires env.Contract() && SendsSucceed(env)
    requires |hs| <= 1 && (forall i :: 0 <= i < |hs| ==> hs[i].msg.RequestHeaders?)
    requires Run(env, FRESH, hs).exit.None? && ChunkRun(ms)
    requires env.decode(WholeBody(ms), map[]) == Some(d)
    requires env.route(0, RequestView(Run(env, FRESH, hs).st.ctx.headers, d, ms[|ms| - 1].metadata)).err.None?
    ensures var r := env.route(0, RequestView(Run(env, FRESH, hs).st.ctx.headers, d, ms[|ms| - 1].metadata));
            var doc, o := r.doc, Run(env, FRESH, hs + ms);
            && o.exit.None?
            && (env.encode(doc).Some? ==>
                  && |o.st.sent| >= |hs|
                  && (forall i :: 0 <= i < |hs| ==> o.st.sent[i].RequestHeaderReply?)
                  && (Run(env, FRESH, hs).st.sent == [] ==> forall i :: 0 <= i < |hs| ==>
                        o.st.sent[i] == RequestHeaderReply(r.endpoint, |env.encode(doc).value|, r.headers))
                  && o.st.sent[|hs|..] == RequestReplies(env.split(env.encode(doc).value, true))
                  && o.st.running)
            && (env.encode(doc).None? ==> o.st.sent == Run(env, FRESH, hs).st.sent && !o.st.running)
  {
    hide Step, Pass, PassOk, RequestReplies;
    RunAppend(env, FRESH, hs, ms);
    var s := Run(env, FRESH, hs).st;
    FreshRun(env, hs);
    ChunksRefineOneShot(env, s, ms);
    RequestTurn(env, s, OneShot(ms), d, |hs|);
  }

  lemma FreshRun(env: Env, hs: seq<Req>)
    requires SendsSucceed(env) && |hs| <= 1 && (forall i :: 0 <= i < |hs| ==> hs[i].msg.RequestHeaders?)
    requires Run(env, FRESH, hs).exit.None?
    ensures Asking(Run(env, FRESH, hs).st, |hs|) && Due(Run(env, FRESH, hs).st) == []
  {
    hide Step;
    assert Due(FRESH) == [];
    if hs == [] {
      assert Run(env, FRESH, hs).st == FRESH;
    } else {
      AfterHeaders(env, hs[0]);
      StepSettles(env, FRESH, hs[0]);
      assert hs[1..] == [];
      assert Run(env, FRESH, hs) == Step(env, FRESH, hs[0]);
    }
  }

  /** A stream that has seen n header messages (0 or 1) and no complete body. */
  predicate Asking(s: Stream, n: nat)
  {
    && s.ctx.sawHeaders == (n == 1) && s.ctx.doc == map[] && s.ctx.body == [] && s.calls == [] && s.reqBody == []
    && !s.running
    && (|| (s.phase == Phase.RequestReceived && s.sent == [])
        || (n == 1 && s.phase == HeaderRequestResponseComplete && |s.sent| == 1 && s.sent[0].RequestHeaderReply?))
  }

  lemma RequestTurn(env: Env, s: Stream, m: Req, d: Json, n: nat)
    requires env.Contract() && SendsSucceed(env) && Asking(s, n) && n <= 1 && Due(s) == []
    requires m.msg.RequestBody? && m.msg.eos && env.decode(m.msg.chunk, map[]) == Some(d)
    requires env.route(0, RequestView(s.ctx.headers, d, m.metadata)).err.None?
    ensures var r := env.route(0, RequestView(s.ctx.headers, d, m.metadata));
            var doc, o := r.doc, Step(env, s, m);
            && o.exit.None?
            && (env.encode(doc).Some? ==>
                  && |o.st.sent| >= n && (forall i :: 0 <= i < n ==> o.st.sent[i].RequestHeaderReply?)
                  && (s.sent == [] ==> forall i :: 0 <= i < n ==>
                        o.st.sent[i] == RequestHeaderReply(r.endpoint, |env.encode(doc).value|, r.headers))
                  && o.st.sent[n..] == RequestReplies(env.split(env.encode(doc).value, true))
                  && o.st.running)
            && (env.encode(doc).None? ==> o.st.sent == s.sent && !o.st.running)
  {
    hide RequestReplies, GoodSplit, Step, Due;
    var r := env.route(0, RequestView(s.ctx.headers, d, m.metadata));
    match env.encode(r.doc)
    case None => UnmarshalledTurn(env, s, m, d, n);
    case Some(b) =>
      MarshalledTurn(env, s, m, d, n, b);
      var q := HeaderFor(s, n, r, b) + RequestReplies(env.split(b, true));
      if s.sent == [] { assert [] + q == q; }
  }

  /** The header reply that goes out with the body, unless no headers came or one is out already. */
  function HeaderFor(s: Stream, n: nat, r: RouteResult, b: Bytes): seq<Reply>
  {
    if n == 1 && s.sent == [] then [RequestHeaderReply(r.endpoint, |b|, r.headers)] else []
  }

  lemma MarshalledTurn(env: Env, s: Stream, m: Req, d: Json, n: nat, b: Bytes)
    requires env.Contract() && SendsSucceed(env) && Asking(s, n) && n <= 1 && Due(s) == []
    requires m.msg.RequestBody? && m.msg.eos && env.decode(m.msg.chunk, map[]) == Some(d)
    requires env.route(0, RequestView(s.ctx.headers, d, m.metadata)).err.None?
    requires env.encode(env.route(0, RequestView(s.ctx.headers, d, m.metadata)).doc) == Some(b)
    ensures var r, o := env.route(0, RequestView(s.ctx.headers, d, m.metadata)), Step(env, s, m);
            && o.exit.None? && o.st.running
            && o.st.sent == s.sent + (HeaderFor(s, n, r, b) + RequestReplies(env.split(b, true)))
  {
    hide RequestReplies, GoodSplit, Step, HandleWholeRequest, Due, RequestBodyDue;
    var s1 := s.(ctx := s.ctx.(metadata := m.metadata));
    assert s1.ctx.body + m.msg.chunk == m.msg.chunk;
    QueuedReplies(env, s1, m.msg.chunk, d);
    TurnGoesOn(env, s, m);
    BatchNotEmpty(env, b);
    AskingDue(s, n, HandleWholeRequest(env, s1, m.msg.chunk).st);
  }

  lemma UnmarshalledTurn(env: Env, s: Stream, m: Req, d: Json, n: nat)
    requires SendsSucceed(env) && Asking(s, n) && n <= 1 && Due(s) == []
    requires m.msg.RequestBody? && m.msg.eos && env.decode(m.msg.chunk, map[]) == Some(d)
    requires env.route(0, RequestView(s.ctx.headers, d, m.metadata)).err.None?
    requires env.encode(env.route(0, RequestView(s.ctx.headers, d, m.metadata)).doc).None?
    ensures Step(env, s, m).exit.None? && Step(env, s, m).st.sent == s.sent && !Step(env, s, m).st.running
  {
    assert !RequestBodyDue(s);
    hide RequestReplies, GoodSplit, Step, HandleWholeRequest, Due, RequestBodyDue;
    var s1 := s.(ctx := s.ctx.(metadata := m.metadata));
    assert s1.ctx.body + m.msg.chunk == m.msg.chunk;
    QueuedReplies(env, s1, m.msg.chunk, d);
    TurnGoesOn(env, s, m);
    SameDue(s, HandleWholeRequest(env, s1, m.msg.chunk).st);
  }

  lemma TurnGoesOn(env: Env, s: Stream, m: Req)
    requires SendsSucceed(env) && Absorb(env, s.(ctx := s.ctx.(metadata := m.metadata)), m.msg).err.None?
    ensures var a, o := Absorb(env, s.(ctx := s.ctx.(metadata := m.metadata)), m.msg).st, Step(env, s, m);
            o.exit.None? && o.st.sent == a.sent + Due(a) && o.st.running == (a.running || RequestBodyDue(a))
  {
    PassSendsAll(env, Absorb(env, s.(ctx := s.ctx.(metadata := m.metadata)), m.msg).st);
    hide Absorb, Pass, PassOk, Due;
  }

  lemma AskingDue(s: Stream, n: nat, t: Stream)
    requires Asking(s, n) && n <= 1 && t.phase == s.phase && t.ctx.sawHeaders == s.ctx.sawHeaders
    requires t.reqHeader.Some? && t.reqBody != []
    ensures RequestBodyDue(t)
    ensures Due(t) == (if n == 1 && s.sent == [] then [t.reqHeader.value] else []) + t.reqBody
  {
  }

  lemma SameDue(s: Stream, t: Stream)
    requires s.phase == t.phase && s.ctx.sawHeaders == t.ctx.sawHeaders
    requires s.reqHeader == t.reqHeader && s.reqBody == t.reqBody
    requires s.respHeader == t.respHeader && s.respBody == t.respBody
    ensures Due(t) == Due(s) && RequestBodyDue(t) == RequestBodyDue(s)
  {
  }

  // ---------- Responses ----------

  function ResponseBytes(t: seq<Reply>): Bytes
  {
    if t == [] then [] else (if t[0].ResponseBodyReply? then t[0].chunk else []) + ResponseBytes(t[1..])
  }

  lemma {:induction false} ResponseBytesAppend(t: seq<Reply>, u: seq<Reply>)
    ensures ResponseBytes(t + u) == ResponseBytes(t) + ResponseBytes(u)
    decreases |t|
  {
    if t == [] {
      assert t + u == u;
    } else {
      assert (t + u)[1..] == t[1..] + u;
      ResponseBytesAppend(t[1..], u);
    }
  }

  lemma {:induction false} BatchBytes(cs: seq<Chunk>)
    ensures ResponseBytes(ResponseReplies(cs)) == BytesOf(cs)
    decreases |cs|
  {
    if cs == [] {
    } else {
      assert ResponseReplies(cs)[1..] == ResponseReplies(cs[1..]);
      BatchBytes(cs[1..]);
    }
  }

  /** The response body replies among what was sent. */
  function ResponseParts(t: seq<Reply>): seq<Reply>
  {
    if t == [] then [] else (if t[0].ResponseBodyReply? then [t[0]] else []) + ResponseParts(t[1..])
  }

  lemma {:induction false} ResponsePartsAppend(t: seq<Reply>, u: seq<Reply>)
    ensures ResponseParts(t + u) == ResponseParts(t) + ResponseParts(u)
    decreases |t|
  {
    if t == [] {
      assert t + u == u;
    } else {
      assert (t + u)[0] == t[0] && (t + u)[1..] == t[1..] + u;
      ResponsePartsAppend(t[1..], u);
      ConcatAssociative(if t[0].ResponseBodyReply? then [t[0]] else [], ResponseParts(t[1..]), ResponseParts(u));
    }
  }

  predicate AllParts(q: seq<Reply>) { forall i :: 0 <= i < |q| ==> q[i].ResponseBodyReply? }

  lemma {:induction false} ResponsePartsAll(q: seq<Reply>)
    requires AllParts(q)
    ensures ResponseParts(q) == q
    decreases |q|
  {
    if q == [] {
    } else {
      ResponsePartsAll(q[1..]);
    }
  }

  lemma {:induction false} PartsBytes(t: seq<Reply>)
    ensures ResponseBytes(ResponseParts(t)) == ResponseBytes(t)
    decreases |t|
  {
    if t == [] {
    } else {
      var h := if t[0].ResponseBodyReply? then [t[0]] else [];
      PartsBytes(t[1..]);
      ResponseBytesAppend(h, ResponseParts(t[1..]));
      if t[0].ResponseBodyReply? { assert ResponseBytes(h) == t[0].chunk + ResponseBytes([]); }
    }
  }

  /** Replies sent in part carry a first part of the bytes. */
  lemma PrefixBytes(t: seq<Reply>, q: seq<Reply>)
    requires t <= q
    ensures ResponseBytes(t) <= ResponseBytes(q)
  {
    assert q == t + q[|t|..];
    ResponseBytesAppend(t, q[|t|..]);
  }

  /** The response bytes a run of messages carries. */
  function Received(ms: seq<Req>): Bytes
  {
    if ms == [] then [] else (if ms[0].msg.ResponseBody? then ms[0].msg.chunk else []) + Received(ms[1..])
  }

  predicate NoBodies(ms: seq<Req>) { forall i :: 0 <= i < |ms| ==> !ms[i].msg.ResponseBody? }

  lemma {:induction false} NothingReceived(ms: seq<Req>)
    requires NoBodies(ms)
    ensures Received(ms) == []
    decreases |ms|
  {
    if ms == [] {
    } else {
      NothingReceived(ms[1..]);
    }
  }

  /** The response header is out, the body is not finished, nothing waits. */
  predicate Answering(s: Stream)
  {
    s.phase == HeaderResponseResponseComplete && s.respBody == []
  }

  /** In that state a body turn sends a prefix of what was just queued: all of it if the stream goes on. */
  lemma AnsweringPass(env: Env, s: Stream, q: seq<Reply>)
    requires s.phase == HeaderResponseResponseComplete && s.respBody == q && AllParts(q)
    ensures ResponseParts(Pass(env, s).sent) <= ResponseParts(s.sent) + q
    ensures PassOk(env, s) ==> ResponseParts(Pass(env, s).sent) == ResponseParts(s.sent) + q
    ensures PassOk(env, s) ==> Pass(env, s).respBody == []
    ensures PassOk(env, s) && !EndIn(q) ==> Answering(Pass(env, s))
  {
    hide EndIn;
    if q == [] {
      IdlePass(env, s);
      assert ResponseParts(s.sent) + [] == ResponseParts(s.sent);
    } else {
      var k := Delivered(env, s.attempts, |q|);
      ResponseBodyPass(env, s, k);
      ResponsePartsAppend(s.sent, q[..k]);
      ResponsePartsAppend(s.sent, q);
      ResponsePartsAll(q[..k]);
      ResponsePartsAll(q);
      hide Pass, PassOk;
    }
  }

  lemma BodyTyped(env: Env, b: Bytes, eos: bool)
    requires env.Contract()
    ensures AllParts(ResponseReplies(env.split(b, eos)))
    ensures !eos ==> !EndIn(ResponseReplies(env.split(b, eos)))
    ensures ResponseBytes(ResponseReplies(env.split(b, eos))) == b
  {
    SplitTyped(env, b, eos);
    BatchBytes(env.split(b, eos));
  }

  lemma StreamedTurn(env: Env, s: Stream, m: Req)
    requires env.Contract() && s.ctx.streaming && Answering(s) && m.msg.ResponseBody?
    ensures var q, o := ResponseReplies(env.split(m.msg.chunk, m.msg.eos)), Step(env, s, m);
            && ResponseParts(o.st.sent) <= ResponseParts(s.sent) + q
            && (o.exit.None? ==> ResponseParts(o.st.sent) == ResponseParts(s.sent) + q)
            && (o.exit.None? ==> o.st.respBody == [] && o.st.ctx.streaming)
            && (o.exit.None? && !m.msg.eos ==> Answering(o.st))
  {
    var s1 := s.(ctx := s.ctx.(metadata := m.metadata));
    var a := Absorb(env, s1, m.msg);
    var q := ResponseReplies(env.split(m.msg.chunk, m.msg.eos));
    BodyTyped(env, m.msg.chunk, m.msg.eos);
    assert a.err.None? && a.st.respBody == q && a.st.ctx.streaming;
    assert a.st.phase == s.phase && a.st.sent == s.sent;
    PassKeepsCtx(env, a.st);
    hide Absorb, Pass, PassOk, EndIn, ResponseReplies;
    AnsweringPass(env, a.st, q);
  }

  lemma PassKeepsCtx(env: Env, s: Stream)
    ensures Pass(env, s).ctx == s.ctx && Pass(env, s).calls == s.calls
  {
    hide EndIn;
  }

  /** The turn of a ResponseHeaders message on a live stream on which no response body waits. */
  lemma HeadersTurn(env: Env, s: Stream, m: Req)
    requires m.msg.ResponseHeaders? && HeadersTyped(s) && s.respBody == []
    ensures Step(env, s, m).exit.None? ==>
              && Answering(Step(env, s, m).st)
              && Step(env, s, m).st.ctx.streaming == (s.ctx.streaming || AnyEventStream(m.msg.fields))
              && Step(env, s, m).st.ctx.body == s.ctx.body && Step(env, s, m).st.ctx.respDoc == s.ctx.respDoc
              && ResponseParts(Step(env, s, m).st.sent) == ResponseParts(s.sent)
  {
    var s1 := s.(ctx := s.ctx.(metadata := m.metadata));
    var a := Absorb(env, s1, m.msg).st;
    assert a.phase == ResponseReceived && a.respHeader == Some(ResponseHeaderReply(m.msg.fields));
    assert Due(a) == [ResponseHeaderReply(m.msg.fields)];
    ResponsePartsAppend(s.sent, Due(a));
    assert Due(a)[..1] == Due(a) && Due(a)[1..] == [];
    hide EndIn, AnyBadStatus, AnyEventStream, Due;
    if PassOk(env, a) { assert Delivered(env, a.attempts, 1) == 1; }
  }

  lemma NoResponseParts(t: seq<Reply>)
    requires forall i :: 0 <= i < |t| ==> !t[i].ResponseBodyReply?
    ensures ResponseParts(t) == []
  {
  }

  lemma QuietAbsorb(env: Env, s: Stream, m: Msg)
    requires s.respBody == [] && !m.ResponseBody?
    ensures Absorb(env, s, m).st.respBody == []
  {
  }

  lemma QuietPass(env: Env, s: Stream)
    requires SlotsTyped(env, s) && s.respBody == []
    ensures Pass(env, s).respBody == [] && ResponseParts(Pass(env, s).sent) == ResponseParts(s.sent)
  {
    var k := Delivered(env, s.attempts, |Due(s)|);
    NoResponseParts(Due(s)[..k]);
    ResponsePartsAppend(s.sent, Due(s)[..k]);
    hide EndIn, IsBatch;
  }

  /** Messages other than response bodies neither queue nor send response bytes. */
  lemma QuietTurn(env: Env, s: Stream, m: Req)
    requires env.Contract() && SlotsTyped(env, s) && s.respBody == [] && !m.msg.ResponseBody?
    ensures Step(env, s, m).st.respBody == []
    ensures ResponseParts(Step(env, s, m).st.sent) == ResponseParts(s.sent)
  {
    var s1 := s.(ctx := s.ctx.(metadata := m.metadata));
    assert SlotsTyped(env, s1);
    hide SlotsTyped, Absorb, Pass, PassOk;
    AbsorbSlots(env, s1, m.msg);
    QuietAbsorb(env, s1, m.msg);
    AbsorbFrame(env, s1, m.msg);
    var a := Absorb(env, s1, m.msg);
    QuietPass(env, a.st);
    if a.err.Some? && StatusOf(a.err.value).Some? {
      var r := ImmediateReply(StatusOf(a.err.value).value);
      ResponsePartsAppend(s.sent, [r]);
      NoResponseParts([r]);
    }
  }

  lemma LiveSlots(env: Env, s: Stream, n: nat)
    requires Live(env, s, n)
    ensures SlotsTyped(env, s) && HeadersTyped(s)
  {
  }

  /** No response body waits; if a response is under way its header is out and its body is not finished. */
  predicate Ready(s: Stream, open: bool) { s.respBody == [] && (open ==> s.phase == HeaderResponseResponseComplete) }

  /** Is a response under way after this message? It begins with its headers and ends with its last chunk. */
  predicate Opens(open: bool, m: Msg) { m.ResponseHeaders? || (open && !(m.ResponseBody? && m.eos)) }

  predicate StartsStream(m: Msg) { m.ResponseHeaders? && AnyEventStream(m.fields) }

  /** What messages other than response bodies do to the fields a response depends on. */
  lemma QuietCtx(env: Env, s: Stream, m: Msg)
    requires !m.ResponseBody?
    ensures Absorb(env, s, m).st.ctx.streaming == (s.ctx.streaming || StartsStream(m))
    ensures Absorb(env, s, m).st.ctx.respDoc == s.ctx.respDoc
    ensures Absorb(env, s, m).err.None? ==> Absorb(env, s, m).st.ctx.body == Pending(s.ctx.body, m)
  {
    hide AnyEventStream, AnyBadStatus;
    match m
    case RequestBody(chunk, eos) =>
      hide HandleWholeRequest;
      WholeRequestCtx(env, s, s.ctx.body + chunk);
    case _ =>
  }

  lemma WholeRequestCtx(env: Env, s: Stream, whole: Bytes)
    ensures HandleWholeRequest(env, s, whole).err.None? ==> HandleWholeRequest(env, s, whole).st.ctx.body == []
    ensures HandleWholeRequest(env, s, whole).st.ctx.streaming == s.ctx.streaming
    ensures HandleWholeRequest(env, s, whole).st.ctx.respDoc == s.ctx.respDoc
  {
    hide RequestReplies;
  }

  /** The request bytes in the shared buffer after a message: a completed body leaves none. */
  function Pending(held: Bytes, m: Msg): Bytes
  {
    if m.RequestBody? then (if m.eos then [] else held + m.chunk) else held
  }

  lemma OpenPass(env: Env, s: Stream)
    requires s.phase == HeaderResponseResponseComplete && s.respBody == []
    ensures Pass(env, s) == s
  {
    IdlePass(env, s);
  }

  /** The turn of any message but a response body, on a stream that is ready. */
  lemma ReadyTurn(env: Env, s: Stream, m: Req, n: nat, open: bool)
    requires env.Contract() && Live(env, s, n) && Ready(s, open) && !m.msg.ResponseBody?
    ensures ResponseParts(Step(env, s, m).st.sent) == ResponseParts(s.sent)
    ensures Step(env, s, m).exit.None? ==>
              && Ready(Step(env, s, m).st, Opens(open, m.msg))
              && Step(env, s, m).st.ctx.streaming == (s.ctx.streaming || StartsStream(m.msg))
              && Step(env, s, m).st.ctx.respDoc == s.ctx.respDoc
              && Step(env, s, m).st.ctx.body == Pending(s.ctx.body, m.msg)
  {
    LiveSlots(env, s, n);
    hide Live, SlotsTyped, Absorb, Pass, PassOk, Pending;
    QuietTurn(env, s, m);
    var s1 := s.(ctx := s.ctx.(metadata := m.metadata));
    var a := Absorb(env, s1, m.msg);
    QuietCtx(env, s1, m.msg);
    QuietAbsorb(env, s1, m.msg);
    AbsorbFrame(env, s1, m.msg);
    PassKeepsCtx(env, a.st);
    if m.msg.ResponseHeaders? {
      HeadersTurn(env, s, m);
    } else if open {
      OpenPass(env, a.st);
    }
  }

  // ---------- Streamed responses ----------

  /** Every response chunk belongs to a response under way that has been announced as an event stream. */
  predicate Streamed(open: bool, streaming: bool, ms: seq<Req>)
    decreases |ms|
  {
    ms != [] ==>
      && (ms[0].msg.ResponseBody? ==> open && streaming)
      && Streamed(Opens(open, ms[0].msg), streaming || StartsStream(ms[0].msg), ms[1..])
  }

  /** The replies to the streamed chunks of a run: each chunk is passed on as it is, with its end mark. */
  function StreamedReplies(env: Env, ms: seq<Req>): seq<Reply>
  {
    if ms == [] then []
    else
      (if ms[0].msg.ResponseBody? then ResponseReplies(env.split(ms[0].msg.chunk, ms[0].msg.eos)) else [])
      + StreamedReplies(env, ms[1..])
  }

  lemma {:induction false} StreamedBytes(env: Env, ms: seq<Req>)
    requires env.Contract()
    ensures ResponseBytes(StreamedReplies(env, ms)) == Received(ms)
    decreases |ms|
  {
    hide ResponseReplies;
    if ms == [] {
    } else {
      var m := ms[0].msg;
      var q := if m.ResponseBody? then ResponseReplies(env.split(m.chunk, m.eos)) else [];
      if m.ResponseBody? { BodyTyped(env, m.chunk, m.eos); }
      StreamedBytes(env, ms[1..]);
      ResponseBytesAppend(q, StreamedReplies(env, ms[1..]));
    }
  }

  lemma {:induction false} StreamedRun(env: Env, s: Stream, ms: seq<Req>, n: nat, open: bool)
    requires env.Contract() && Live(env, s, n) && Ready(s, open) && Streamed(open, s.ctx.streaming, ms)
    ensures ResponseParts(Run(env, s, ms).st.sent) <= ResponseParts(s.sent) + StreamedReplies(env, ms)
    ensures Run(env, s, ms).exit.None? ==>
              ResponseParts(Run(env, s, ms).st.sent) == ResponseParts(s.sent) + StreamedReplies(env, ms)
    decreases |ms|
  {
    hide Step, Live, Trace, StartsStream, ResponseReplies;
    var b := ResponseParts(s.sent);
    if ms == [] {
      assert b + [] == b;
    } else {
      var m, o, rest := ms[0].msg, Step(env, s, ms[0]), StreamedReplies(env, ms[1..]);
      var q := if m.ResponseBody? then ResponseReplies(env.split(m.chunk, m.eos)) else [];
      ConcatAssociative(b, q, rest);
      assert b + [] == b;
      StepKeeps(env, s, ms[0], n);
      if m.ResponseBody? {
        StreamedTurn(env, s, ms[0]);
        assert Opens(open, m) <==> !m.eos;
      } else {
        ReadyTurn(env, s, ms[0], n, open);
      }
      if o.exit.None? { StreamedRun(env, o.st, ms[1..], n + Count(m), Opens(open, m)); }
    }
  }

  /**
    Streamed responses, with any other messages before, between and after the chunks, and however the
    stream ends: the body replies sent are the first ones of those to the chunks received, in order, and all of
    them while the stream is up.
  */
  lemma StreamedResponseReplies(env: Env, ms: seq<Req>, end: Exit)
    requires env.Contract() && Streamed(false, false, ms)
    ensures ResponseParts(Process(env, ms, end).st.sent) <= StreamedReplies(env, ms)
    ensures Run(env, FRESH, ms).exit.None? ==>
              ResponseParts(Process(env, ms, end).st.sent) == StreamedReplies(env, ms)
  {
    hide Run, Live;
    FreshLive(env);
    StreamedRun(env, FRESH, ms, 0, false);
    assert [] + StreamedReplies(env, ms) == StreamedReplies(env, ms);
  }

  /** So the bytes sent are a prefix of the bytes received, and all of them while the stream is up. */
  lemma StreamedResponseConserved(env: Env, ms: seq<Req>, end: Exit)
    requires env.Contract() && Streamed(false, false, ms)
    ensures ResponseBytes(Process(env, ms, end).st.sent) <= Received(ms)
    ensures Run(env, FRESH, ms).exit.None? ==> ResponseBytes(Process(env, ms, end).st.sent) == Received(ms)
  {
    hide Run, Process, Streamed, StreamedReplies, Received;
    StreamedResponseReplies(env, ms, end);
    StreamedBytes(env, ms);
    var sent := Process(env, ms, end).st.sent;
    PartsBytes(sent);
    PrefixBytes(ResponseParts(sent), StreamedReplies(env, ms));
  }

  // ---------- Buffered responses ----------

  /** Response body messages of which exactly the last one ends the stream. */
  predicate ResponseChunkRun(ms: seq<Req>)
  {
    |ms| > 0 && forall i :: 0 <= i < |ms| ==> ms[i].msg.ResponseBody? && (ms[i].msg.eos <==> i == |ms| - 1)
  }

  function OneShotResponse(ms: seq<Req>): Req
    requires ResponseChunkRun(ms)
  {
    Req(ms[|ms| - 1].metadata, ResponseBody(Received(ms), true))
  }

  lemma BufferedResponseChunk(env: Env, s: Stream, m: Req)
    requires Due(s) == [] && !s.ctx.streaming && m.msg.ResponseBody? && !m.msg.eos
    ensures Step(env, s, m)
         == Outcome(s.(ctx := s.ctx.(metadata := m.metadata, body := s.ctx.body + m.msg.chunk)), None)
  {
    NothingDue(s);
    IdlePass(env, s.(ctx := s.ctx.(metadata := m.metadata, body := s.ctx.body + m.msg.chunk)));
  }

  lemma MergeIntoLastResponse(env: Env, s: Stream, meta: Json, first: Bytes, last: Req)
    requires !s.ctx.streaming && last.msg.ResponseBody? && last.msg.eos
    ensures Step(env, s.(ctx := s.ctx.(metadata := meta, body := s.ctx.body + first)), last)
         == Step(env, s, Req(last.metadata, ResponseBody(first + last.msg.chunk, true)))
  {
    var t := s.(ctx := s.ctx.(metadata := meta, body := s.ctx.body + first));
    var whole := t.ctx.body + last.msg.chunk;
    assert whole == s.ctx.body + (first + last.msg.chunk);
    var s1, t1 := s.(ctx := s.ctx.(metadata := last.metadata)), t.(ctx := t.ctx.(metadata := last.metadata));
    assert s1.(ctx := s1.ctx.(body := whole)) == t1.(ctx := t1.ctx.(body := whole));
    WholeResponseIgnoresBuffer(env, s1, whole);
    WholeResponseIgnoresBuffer(env, t1, whole);
    hide HandleWholeResponse, Pass, PassOk;
  }

  /** A buffered response, too, does not depend on how it was cut into chunks. */
  lemma {:induction false} ResponseChunksRefineOneShot(env: Env, s: Stream, ms: seq<Req>)
    requires Due(s) == [] && !s.ctx.streaming && ResponseChunkRun(ms)
    ensures Run(env, s, ms) == Step(env, s, OneShotResponse(ms))
    decreases |ms|
  {
    hide Step;
    var m, rest := ms[0], ms[1..];
    if rest == [] {
      assert Received(ms) == m.msg.chunk + Received([]);
      assert OneShotResponse(ms) == m;
      assert Run(env, Step(env, s, m).st, []) == Outcome(Step(env, s, m).st, None);
    } else {
      var t := s.(ctx := s.ctx.(metadata := m.metadata, body := s.ctx.body + m.msg.chunk));
      BufferedResponseChunk(env, s, m);
      StepSettles(env, s, m);
      ResponseChunksRefineOneShot(env, t, rest);
      MergeIntoLastResponse(env, s, m.metadata, m.msg.chunk, OneShotResponse(rest));
      assert rest[|rest| - 1] == ms[|ms| - 1];
    }
  }

  /**
    The replies to a complete buffered response: itself if it is not JSON; otherwise the payload the response
    handler leaves, if it leaves one. `calls` is the number of director calls before, `doc` what earlier
    responses left in the target of the decoder.
  */
  function FinalReplies(env: Env, calls: nat, doc: Json, whole: Bytes): seq<Reply>
  {
    match env.decode(whole, doc)
    case None => ResponseReplies(env.split(whole, true))
    case Some(d) =>
      match env.onResponse(calls, d).payload
      case None => []
      case Some(p) => ResponseReplies(env.split(p, true))
  }

  /** What the target of the response decoder holds afterwards. */
  function DocAfter(env: Env, doc: Json, whole: Bytes): Json
  {
    var d := env.decode(whole, doc);
    if d.Some? then d.value else doc
  }

  lemma FinalTyped(env: Env, calls: nat, doc: Json, whole: Bytes)
    requires env.Contract()
    ensures AllParts(FinalReplies(env, calls, doc, whole))
  {
    BodyTyped(env, whole, true);
    match env.decode(whole, doc)
    case None =>
    case Some(d) =>
      if env.onResponse(calls, d).payload.Some? { BodyTyped(env, env.onResponse(calls, d).payload.value, true); }
  }

  /** What the last chunk of a buffered response queues, before anything of it is sent. */
  lemma FinalQueued(env: Env, s: Stream, whole: Bytes)
    requires s.respBody == []
    ensures var d := env.decode(whole, s.ctx.respDoc);
            var done := d.Some? && env.onResponse(|s.calls|, d.value).completed;
            HandleWholeResponse(env, s, whole)
            == s.(ctx := s.ctx.(body := whole, respDoc := DocAfter(env, s.ctx.respDoc, whole),
                                complete := s.ctx.complete || done),
                  hooks := s.hooks + (if done then 1 else 0),
                  respBody := FinalReplies(env, |s.calls|, s.ctx.respDoc, whole))
  {
    hide ResponseReplies;
    match env.decode(whole, s.ctx.respDoc)
    case None =>
    case Some(d) =>
  }

  lemma FinalTurn(env: Env, s: Stream, m: Req)
    requires env.Contract() && !s.ctx.streaming && Answering(s) && m.msg.ResponseBody? && m.msg.eos
    ensures var q, o := FinalReplies(env, |s.calls|, s.ctx.respDoc, s.ctx.body + m.msg.chunk), Step(env, s, m);
            && ResponseParts(o.st.sent) <= ResponseParts(s.sent) + q
            && (o.exit.None? ==>
                  && ResponseParts(o.st.sent) == ResponseParts(s.sent) + q && o.st.respBody == []
                  && o.st.ctx.body == s.ctx.body + m.msg.chunk && !o.st.ctx.streaming
                  && o.st.ctx.respDoc == DocAfter(env, s.ctx.respDoc, s.ctx.body + m.msg.chunk)
                  && |o.st.calls| == |s.calls|)
  {
    var q := FinalReplies(env, |s.calls|, s.ctx.respDoc, s.ctx.body + m.msg.chunk);
    var a := Absorb(env, s.(ctx := s.ctx.(metadata := m.metadata)), m.msg);
    FinalTyped(env, |s.calls|, s.ctx.respDoc, s.ctx.body + m.msg.chunk);
    FinalQueued(env, s.(ctx := s.ctx.(metadata := m.metadata)), s.ctx.body + m.msg.chunk);
    hide HandleWholeResponse;
    assert a.err.None? && a.st.respBody == q && a.st.phase == s.phase && a.st.sent == s.sent;
    PassKeepsCtx(env, a.st);
    hide Absorb, Pass, PassOk, EndIn, ResponseReplies, FinalReplies, DocAfter, GoodSplit;
    AnsweringPass(env, a.st, q);
  }

  /**
    At most one response with a body, in chunks that belong to a response under way, the last one ending it.
    Other messages, request bodies included, may come at any point.
  */
  predicate Buffered(open: bool, ms: seq<Req>)
    decreases |ms|
  {
    ms != [] ==>
      && (ms[0].msg.ResponseBody? ==> open)
      && if EndsBody(ms[0].msg) then NoBodies(ms[1..]) else Buffered(Opens(open, ms[0].msg), ms[1..])
  }

  predicate EndsBody(m: Msg) { m.ResponseBody? && m.eos }

  predicate Ended(ms: seq<Req>) { exists i :: 0 <= i < |ms| && EndsBody(ms[i].msg) }

  predicate NoEventStream(ms: seq<Req>) { forall i :: 0 <= i < |ms| ==> !StartsStream(ms[i].msg) }

  /** The buffer that request and response share, after a message. */
  function Shared(held: Bytes, m: Msg): Bytes
  {
    if m.ResponseBody? then held + m.chunk else Pending(held, m)
  }

  /** What the shared buffer holds when the response ends. */
  function Passed(held: Bytes, ms: seq<Req>): Bytes
    decreases |ms|
  {
    if ms == [] then []
    else if EndsBody(ms[0].msg) then Shared(held, ms[0].msg)
    else Passed(Shared(held, ms[0].msg), ms[1..])
  }

  /** Messages that carry no response body, however the run ends. */
  lemma {:induction false} QuietRun(env: Env, s: Stream, ms: seq<Req>, n: nat)
    requires env.Contract() && Live(env, s, n) && Ready(s, false) && NoBodies(ms)
    ensures ResponseParts(Run(env, s, ms).st.sent) == ResponseParts(s.sent)
    decreases |ms|
  {
    hide Step, Run, Live, Trace, StartsStream, Pending, ResponseParts, AnyEventStream;
    if ms == [] {
      NoMessage(env, s);
    } else {
      var o := Step(env, s, ms[0]);
      FirstMessage(env, s, ms);
      ReadyTurn(env, s, ms[0], n, false);
      StepKeeps(env, s, ms[0], n);
      if o.exit.None? { QuietRun(env, o.st, ms[1..], n + Count(ms[0].msg)); }
    }
  }

  lemma NoMessage(env: Env, s: Stream)
    ensures Run(env, s, []) == Outcome(s, None)
  {
  }

  /** The director calls a message leads to, if the turn does not end in an error before. */
  function CallsOf(m: Msg): nat
  {
    if m.ResponseHeaders? || (m.RequestBody? && m.eos) then 1 else 0
  }

  /** The director calls before the response ends. */
  function CallsBefore(ms: seq<Req>): nat
  {
    if ms == [] || EndsBody(ms[0].msg) then 0 else CallsOf(ms[0].msg) + CallsBefore(ms[1..])
  }

  /** Any number of buffered responses, each chunk within one under way; other messages anywhere. */
  predicate Responses(open: bool, ms: seq<Req>)
    decreases |ms|
  {
    ms != [] ==> (ms[0].msg.ResponseBody? ==> open) && Responses(Opens(open, ms[0].msg), ms[1..])
  }

  /**
    All replies to the buffered responses of a run. The buffer is never emptied by a response, so a later response
    comes with the bytes of the one before unless a request body was completed in between.
  */
  function BufferedReplies(env: Env, calls: nat, doc: Json, held: Bytes, ms: seq<Req>): seq<Reply>
    decreases |ms|
  {
    if ms == [] then []
    else
      var m, now := ms[0].msg, Shared(held, ms[0].msg);
      if EndsBody(m) then
        FinalReplies(env, calls, doc, now) + BufferedReplies(env, calls, DocAfter(env, doc, now), now, ms[1..])
      else BufferedReplies(env, calls + CallsOf(m), doc, now, ms[1..])
  }

  lemma {:induction false} BufferedRun(env: Env, s: Stream, ms: seq<Req>, n: nat, open: bool)
    requires env.Contract() && Live(env, s, n) && Ready(s, open) && !s.ctx.streaming
    requires Responses(open, ms) && NoEventStream(ms)
    ensures var q := BufferedReplies(env, |s.calls|, s.ctx.respDoc, s.ctx.body, ms);
            && ResponseParts(Run(env, s, ms).st.sent) <= ResponseParts(s.sent) + q
            && (Run(env, s, ms).exit.None? ==> ResponseParts(Run(env, s, ms).st.sent) == ResponseParts(s.sent) + q)
    decreases |ms|
  {
    hide Step, Run, Live, Trace, StartsStream, ResponseParts, Due, GoodSplit, AnyEventStream, Announced, Shared,
      FinalReplies, CallsOf, DocAfter;
    var b := ResponseParts(s.sent);
    if ms == [] {
      NoMessage(env, s);
      assert b + [] == b;
    } else {
      var m, o, now := ms[0].msg, Step(env, s, ms[0]), Shared(s.ctx.body, ms[0].msg);
      FirstMessage(env, s, ms);
      assert NoEventStream(ms[1..]);
      if EndsBody(m) {
        ChunkShared(s.ctx.body, m);
        FinalTurn(env, s, ms[0]);
        StepKeeps(env, s, ms[0], n);
        var q, rest := FinalReplies(env, |s.calls|, s.ctx.respDoc, now),
                       BufferedReplies(env, |s.calls|, DocAfter(env, s.ctx.respDoc, now), now, ms[1..]);
        ConcatAssociative(b, q, rest);
        if o.exit.None? { BufferedRun(env, o.st, ms[1..], n + Count(m), false); }
      } else {
        BufferedMore(env, s, ms[0], n, open);
        if o.exit.None? { BufferedRun(env, o.st, ms[1..], n + Count(m), Opens(open, m)); }
      }
    }
  }

  /** A single response, the first that ends being the last with a body. */
  lemma {:induction false} OneResponse(env: Env, open: bool, calls: nat, doc: Json, held: Bytes, ms: seq<Req>)
    requires Buffered(open, ms)
    ensures Responses(open, ms)
    ensures BufferedReplies(env, calls, doc, held, ms)
         == if Ended(ms) then FinalReplies(env, calls + CallsBefore(ms), doc, Passed(held, ms)) else []
    decreases |ms|
  {
    hide FinalReplies, CallsOf, DocAfter, Shared, Ended;
    if ms == [] {
      assert !Ended([]) by { NeverEnded([]); }
    } else if EndsBody(ms[0].msg) {
      var now := Shared(held, ms[0].msg);
      assert Ended(ms) by { EndedNow(ms); }
      Bodiless(env, calls, DocAfter(env, doc, now), now, false, ms[1..]);
      var q := FinalReplies(env, calls, doc, now);
      assert q + [] == q;
    } else {
      EndedLater(ms);
      OneResponse(env, Opens(open, ms[0].msg), calls + CallsOf(ms[0].msg), doc, Shared(held, ms[0].msg), ms[1..]);
    }
  }

  lemma EndedNow(ms: seq<Req>)
    requires ms != [] && EndsBody(ms[0].msg)
    ensures Ended(ms)
  {
  }

  lemma NeverEnded(ms: seq<Req>)
    requires NoBodies(ms)
    ensures !Ended(ms)
  {
  }

  lemma {:induction false} Bodiless(env: Env, calls: nat, doc: Json, held: Bytes, open: bool, ms: seq<Req>)
    requires NoBodies(ms)
    ensures Responses(open, ms) && BufferedReplies(env, calls, doc, held, ms) == []
    decreases |ms|
  {
    hide FinalReplies, CallsOf, DocAfter, Shared;
    if ms == [] {
    } else {
      Bodiless(env, calls + CallsOf(ms[0].msg), doc, Shared(held, ms[0].msg), Opens(open, ms[0].msg), ms[1..]);
    }
  }

  lemma ChunkShared(held: Bytes, m: Msg)
    requires m.ResponseBody?
    ensures Shared(held, m) == held + m.chunk
  {
  }

  lemma EndedLater(ms: seq<Req>)
    requires ms != [] && !EndsBody(ms[0].msg)
    ensures Ended(ms) <==> Ended(ms[1..])
  {
    if Ended(ms) {
      var i :| 0 <= i < |ms| && EndsBody(ms[i].msg);
      assert EndsBody(ms[1..][i - 1].msg);
    }
    if Ended(ms[1..]) {
      var i :| 0 <= i < |ms[1..]| && EndsBody(ms[1..][i].msg);
      assert EndsBody(ms[i + 1].msg);
    }
  }

  /** A message of a buffered response before its end sends no response byte; the buffer takes what it brings. */
  lemma BufferedMore(env: Env, s: Stream, m: Req, n: nat, open: bool)
    requires env.Contract() && Live(env, s, n) && Ready(s, open) && !s.ctx.streaming
    requires !StartsStream(m.msg) && !EndsBody(m.msg)
    ensures ResponseParts(Step(env, s, m).st.sent) == ResponseParts(s.sent)
    ensures Step(env, s, m).exit.None? ==>
              && Live(env, Step(env, s, m).st, n + Count(m.msg)) && Ready(Step(env, s, m).st, Opens(open, m.msg))
              && !Step(env, s, m).st.ctx.streaming && Step(env, s, m).st.ctx.respDoc == s.ctx.respDoc
              && Step(env, s, m).st.ctx.body == Shared(s.ctx.body, m.msg)
              && |Step(env, s, m).st.calls| == |s.calls| + CallsOf(m.msg)
  {
    LivePhase(env, s, n);
    hide Live, Trace, Step, StartsStream, Due, ResponseParts, AnyEventStream, GoodSplit;
    StepKeeps(env, s, m, n);
    if m.msg.ResponseBody? {
      BufferedResponseChunk(env, s, m);
      assert CallsOf(m.msg) == 0;
    } else {
      ReadyTurn(env, s, m, n, open);
      if Step(env, s, m).exit.None? { TurnCalls(env, s, m); }
    }
  }

  lemma TurnCalls(env: Env, s: Stream, m: Req)
    requires !m.msg.ResponseBody? && Step(env, s, m).exit.None?
    ensures |Step(env, s, m).st.calls| == |s.calls| + CallsOf(m.msg)
  {
    hide AnyEventStream, AnyBadStatus, RequestReplies, EndIn, Due, RequestBodyDue, ResponseBodyDue, HeaderDue;
  }

  /**
    Any number of buffered responses with any other messages anywhere: Envoy receives the replies to each, in
    order, or the first ones of them if the stream breaks off.
  */
  lemma {:induction false} AllBufferedReplies(env: Env, ms: seq<Req>, end: Exit)
    requires env.Contract() && Responses(false, ms) && NoEventStream(ms)
    ensures var q := BufferedReplies(env, 0, map[], [], ms);
            && ResponseParts(Process(env, ms, end).st.sent) <= q
            && (Run(env, FRESH, ms).exit.None? ==> ResponseParts(Process(env, ms, end).st.sent) == q)
  {
    hide Run, Live, Responses, NoEventStream, BufferedReplies;
    FreshLive(env);
    BufferedRun(env, FRESH, ms, 0, false);
    var q := BufferedReplies(env, 0, map[], [], ms);
    assert [] + q == q;
  }

  /** A single one: the replies to what the shared buffer held at its end, or none if it never ends. */
  lemma {:induction false} BufferedResponseReplies(env: Env, ms: seq<Req>, end: Exit)
    requires env.Contract() && Buffered(false, ms) && NoEventStream(ms)
    ensures var q := if Ended(ms) then FinalReplies(env, CallsBefore(ms), map[], Passed([], ms)) else [];
            && ResponseParts(Process(env, ms, end).st.sent) <= q
            && (Run(env, FRESH, ms).exit.None? ==> ResponseParts(Process(env, ms, end).st.sent) == q)
  {
    hide Run, Process, Buffered, NoEventStream, Passed, Ended, FinalReplies, CallsBefore, Responses, BufferedReplies;
    OneResponse(env, false, 0, map[], [], ms);
    AllBufferedReplies(env, ms, end);
  }

  /**
    If it is JSON: Envoy receives to the byte the payload that the response handler leaves, a prefix of it if the
    stream breaks off, and nothing if there is no payload.
  */
  lemma PayloadSent(env: Env, ms: seq<Req>, end: Exit, d: Json)
    requires env.Contract() && Buffered(false, ms) && NoEventStream(ms) && Ended(ms)
    requires env.decode(Passed([], ms), map[]) == Some(d)
    ensures var p := env.onResponse(CallsBefore(ms), d).payload;
            var payload := if p.Some? then p.value else [];
            && ResponseBytes(Process(env, ms, end).st.sent) <= payload
            && (Run(env, FRESH, ms).exit.None? ==> ResponseBytes(Process(env, ms, end).st.sent) == payload)
  {
    var sent := Process(env, ms, end).st.sent;
    hide Run, Process, Buffered, NoEventStream, Passed, Ended, CallsBefore, ResponseReplies;
    BufferedResponseReplies(env, ms, end);
    var p := env.onResponse(CallsBefore(ms), d).payload;
    if p.Some? { BodyTyped(env, p.value, true); }
    PartsBytes(sent);
    PrefixBytes(ResponseParts(sent), FinalReplies(env, CallsBefore(ms), map[], Passed([], ms)));
  }

  /**
    If it is not JSON it is passed through: exactly what the shared buffer held at its end, a prefix of that if
    the stream breaks off, or nothing if the response never ends.
  */
  lemma SharedBufferPassed(env: Env, ms: seq<Req>, end: Exit)
    requires env.Contract() && Buffered(false, ms) && NoEventStream(ms)
    requires Ended(ms) ==> env.decode(Passed([], ms), map[]).None?
    ensures ResponseBytes(Process(env, ms, end).st.sent) <= if Ended(ms) then Passed([], ms) else []
    ensures Run(env, FRESH, ms).exit.None? ==>
              ResponseBytes(Process(env, ms, end).st.sent) == if Ended(ms) then Passed([], ms) else []
  {
    var sent := Process(env, ms, end).st.sent;
    hide Run, Process, Buffered, NoEventStream, Passed, Ended, CallsBefore, ResponseReplies;
    BufferedResponseReplies(env, ms, end);
    PartsBytes(sent);
    if Ended(ms) {
      BodyTyped(env, Passed([], ms), true);
      PrefixBytes(ResponseParts(sent), FinalReplies(env, CallsBefore(ms), map[], Passed([], ms)));
    }
  }

  // ---------- When that is the response ----------

  /** No request body is completed between the first chunk of the response and its end. */
  predicate OnTime(started: bool, ms: seq<Req>)
    decreases |ms|
  {
    if ms == [] || EndsBody(ms[0].msg) then true
    else
      && (ms[0].msg.RequestBody? && ms[0].msg.eos ==> !started)
      && OnTime(started || ms[0].msg.ResponseBody?, ms[1..])
  }

  /** The number of request bytes received, when the response ends, since the last completed request body. */
  function Strays(a: nat, ms: seq<Req>): nat
    decreases |ms|
  {
    if ms == [] || EndsBody(ms[0].msg) then a else Strays(StraysAfter(a, ms[0].msg), ms[1..])
  }

  function StraysAfter(a: nat, m: Msg): nat
  {
    if m.RequestBody? then (if m.eos then 0 else a + |m.chunk|) else a
  }

  /** Of the bytes held, `a` are request bytes; before the response has begun all are. */
  lemma {:induction false} PassedLength(started: bool, held: Bytes, a: nat, ms: seq<Req>)
    requires Buffered(true, ms) && Ended(ms) && OnTime(started, ms) && a <= |held| && (started || a == |held|)
    ensures |Passed(held, ms)| == Strays(a, ms) + (|held| - a) + |Received(ms)|
    decreases |ms|
  {
    var m := ms[0].msg;
    if EndsBody(m) {
      NothingReceived(ms[1..]);
    } else {
      EndedLater(ms);
      hide Ended, NoBodies;
      PassedLength(started || m.ResponseBody?, Shared(held, m), StraysAfter(a, m), ms[1..]);
    }
  }

  /** Once the response has begun, stray bytes stay. */
  lemma {:induction false} StraysStay(a: nat, ms: seq<Req>)
    requires OnTime(true, ms)
    ensures Strays(a, ms) >= a
    decreases |ms|
  {
    if ms == [] || EndsBody(ms[0].msg) {
    } else {
      StraysStay(StraysAfter(a, ms[0].msg), ms[1..]);
    }
  }

  lemma {:induction false} PassedClean(started: bool, held: Bytes, a: nat, ms: seq<Req>)
    requires Buffered(true, ms) && Ended(ms) && OnTime(started, ms) && a <= |held| && (started || a == |held|)
    requires Strays(a, ms) == 0
    ensures Passed(held, ms) == (if started then held else []) + Received(ms)
    decreases |ms|
  {
    var m, rest := ms[0].msg, ms[1..];
    if EndsBody(m) {
      NothingReceived(rest);
      assert Received(ms) == m.chunk;
      assert !started ==> held == [];
    } else {
      EndedLater(ms);
      hide Ended, NoBodies;
      PassedClean(started || m.ResponseBody?, Shared(held, m), StraysAfter(a, m), rest);
      var c := if m.ResponseBody? then m.chunk else [];
      assert Received(ms) == c + Received(rest);
      ConcatAssociative(held, c, Received(rest));
      if started || m.ResponseBody? {
        StraysStay(StraysAfter(a, m), rest);
        assert Shared(held, m) == held + c;
        assert !started ==> held == [] && held + c == c;
      }
    }
  }

  /**
    Where no request body is completed in the middle of the response, what Envoy receives is the response to the
    byte if and only if no request bytes came since the last completed request body.
  */
  lemma PassThroughExactIff(env: Env, ms: seq<Req>)
    requires env.Contract() && Buffered(false, ms) && NoEventStream(ms) && Ended(ms) && OnTime(false, ms)
    requires env.decode(Passed([], ms), map[]).None? && Run(env, FRESH, ms).exit.None?
    ensures ResponseBytes(Run(env, FRESH, ms).st.sent) == Received(ms) <==> Strays(0, ms) == 0
  {
    hide Run, Buffered, NoEventStream, Passed, OnTime, Ended, Received, Strays, ResponseBytes;
    SharedBufferPassed(env, ms, Closed);
    BufferedAnyway(false, ms);
    PassedLength(false, [], 0, ms);
    if Strays(0, ms) == 0 {
      PassedClean(false, [], 0, ms);
      assert [] + Received(ms) == Received(ms);
    }
  }

  lemma {:induction false} BufferedAnyway(open: bool, ms: seq<Req>)
    requires Buffered(open, ms)
    ensures Buffered(true, ms)
    decreases |ms|
  {
    if ms == [] {
    } else if !EndsBody(ms[0].msg) {
      if !open { BufferedAnyway(Opens(open, ms[0].msg), ms[1..]); }
    }
  }

  /** A completed request body leaves the shared buffer empty. */
  lemma CompletedRequestEmptiesBuffer(env: Env, s: Stream, m: Req)
    requires m.msg.RequestBody? && m.msg.eos && Step(env, s, m).exit.None?
    ensures Step(env, s, m).st.ctx.body == [] && Step(env, s, m).st.ctx.streaming == s.ctx.streaming
  {
    var s1 := s.(ctx := s.ctx.(metadata := m.metadata));
    QuietCtx(env, s1, m.msg);
    hide Absorb, Pass, PassOk;
    PassKeepsCtx(env, Absorb(env, s1, m.msg).st);
  }

  /**
    The whole story of a buffered non-JSON response: any messages, as long as no request body is completed in
    its middle and no request bytes are left over. Envoy gets a prefix of the chunks if the stream breaks off,
    and exactly the chunks if it does not.
  */
  lemma BufferedResponseConserved(env: Env, ms: seq<Req>, end: Exit)
    requires env.Contract() && Buffered(false, ms) && NoEventStream(ms) && Ended(ms)
    requires OnTime(false, ms) && Strays(0, ms) == 0 && env.decode(Received(ms), map[]).None?
    ensures ResponseBytes(Process(env, ms, end).st.sent) <= Received(ms)
    ensures Run(env, FRESH, ms).exit.None? ==> ResponseBytes(Process(env, ms, end).st.sent) == Received(ms)
  {
    hide Run, Buffered, NoEventStream, Passed, OnTime, Ended, Received, Strays, ResponseBytes, Process;
    BufferedAnyway(false, ms);
    PassedClean(false, [], 0, ms);
    assert [] + Received(ms) == Received(ms);
    SharedBufferPassed(env, ms, end);
  }
}
