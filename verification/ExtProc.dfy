/**
  The vocabulary of one ext_proc stream: what Envoy sends, what the server answers,
  the answers of the collaborators, and the state one stream keeps.
*/
module ExtProc {
  import opened Basics

  newtype byte = x: int | 0 <= x < 256
  type Bytes = seq<byte>
  /** A decoded JSON object: top-level keys with their values left opaque. */
  type Json = map<string, string>
  type Headers = map<string, string>

  const REQUEST_ID_KEY := "x-request-id"

  datatype Phase =
    | RequestReceived
    | HeaderRequestResponseComplete
    | BodyRequestResponsesComplete
    | TrailerRequestResponsesComplete
    | ResponseReceived
    | HeaderResponseResponseComplete
    | BodyResponseResponsesComplete
    | TrailerResponseResponsesComplete
  {
    /** The integer value the phase has in the source. */
    function Rank(): nat {
      match this
      case RequestReceived => 0
      case HeaderRequestResponseComplete => 1
      case BodyRequestResponsesComplete => 2
      case TrailerRequestResponsesComplete => 3
      case ResponseReceived => 4
      case HeaderResponseResponseComplete => 5
      case BodyResponseResponsesComplete => 6
      case TrailerResponseResponsesComplete => 7
    }
  }

  datatype Field = Field(key: string, value: string)

  /** One message from Envoy. `freshId` is the UUID drawn if no request id is present. */
  datatype Msg =
    | RequestHeaders(requestId: string, freshId: string, fields: seq<Field>, eos: bool)
    | RequestBody(chunk: Bytes, eos: bool)
    | RequestTrailers
    | ResponseHeaders(fields: seq<Field>)
    | ResponseBody(chunk: Bytes, eos: bool)
    | ResponseTrailers

  /** A message together with the metadata that travels with it. */
  datatype Req = Req(metadata: Json, msg: Msg)

  /** Canonical error codes; `Unmapped` stands for every code without an HTTP status. */
  datatype ErrCode =
    | ResourceExhausted | Internal | ServiceUnavailable | BadRequest | BadConfiguration | Unmapped

  datatype Reply =
    | RequestHeaderReply(endpoint: string, size: nat, headers: Headers)
    | RequestBodyReply(chunk: Bytes, eos: bool)
    | ResponseHeaderReply(fields: seq<Field>)
    | ResponseBodyReply(chunk: Bytes, eos: bool)
    | ImmediateReply(status: nat)

  datatype Chunk = Chunk(bytes: Bytes, eos: bool)

  /** What the director sees of a request. */
  datatype RequestView = RequestView(headers: Headers, doc: Json, metadata: Json)

  datatype Call =
    | HandleRequest(view: RequestView)
    | HandleResponseReceived
    | HandleResponseBodyStreaming(text: Bytes)

  /** How the header helper left the context: new headers, an early endpoint, an error. */
  datatype HeadersResult = HeadersResult(headers: Headers, early: Option<string>, err: Option<ErrCode>)

  /** How the director left the context after HandleRequest. */
  datatype RouteResult = RouteResult(
    pod: Option<string>, endpoint: string, model: string, headers: Headers, doc: Json, err: Option<ErrCode>)

  /** How HandleResponseBody left the context; `completed` says it ran the completion hook. */
  datatype ResponseResult = ResponseResult(completed: bool, payload: Option<Bytes>)

  /**
    The collaborators of one stream: JSON codec, helpers, director and transport. The helpers for request
    headers, response headers and streamed response bodies leave the target pod, the model name and the
    completion flag alone; of what they do, only what HeadersResult and Call record is of interest here.
  */
  datatype Env = Env(
    onHeaders: (seq<Field>, bool, Headers) -> HeadersResult,
    decode: (Bytes, Json) -> Option<Json>,
    encode: Json -> Option<Bytes>,
    route: (nat, RequestView) -> RouteResult,
    onResponse: (nat, Json) -> ResponseResult,
    split: (Bytes, bool) -> seq<Chunk>,
    sendOk: nat -> bool)
  {
    /** What is known of the body reply generators. */
    ghost predicate Contract() {
      forall b: Bytes, eos: bool :: GoodSplit(split(b, eos), b, eos)
    }
  }

  function BytesOf(cs: seq<Chunk>): Bytes
  {
    if cs == [] then [] else cs[0].bytes + BytesOf(cs[1..])
  }

  /** A non-empty split of b whose end-of-stream mark sits only on the last piece, and only if asked. */
  predicate GoodSplit(cs: seq<Chunk>, b: Bytes, eos: bool)
  {
    && |cs| > 0
    && BytesOf(cs) == b
    && forall i :: 0 <= i < |cs| && cs[i].eos ==> i == |cs| - 1 && eos
  }

  datatype GaugeOp = Inc(model: string) | Dec(model: string)

  /** The value a list of gauge operations leaves for one model, from zero. */
  function Level(ops: seq<GaugeOp>, model: string): int
  {
    if ops == [] then 0
    else
      (if ops[0].model != model then 0 else if ops[0].Inc? then 1 else -1) + Level(ops[1..], model)
  }

  /** The fields of RequestContext that follow the HTTP request, and the locals of Process. */
  datatype Ctx = Ctx(
    sawHeaders: bool,
    streaming: bool,
    errStatus: bool,
    body: Bytes,
    headers: Headers,
    metadata: Json,
    doc: Json,
    respDoc: Json,
    target: Option<string>,
    endpoint: string,
    model: string,
    size: nat,
    complete: bool)

  /**
    One stream: the protocol fields of RequestContext around a Ctx, and what has become
    observable (replies delivered, send attempts, director calls, gauge moves, hook runs).
  */
  datatype Stream = Stream(
    phase: Phase,
    running: bool,
    ctx: Ctx,
    reqHeader: Option<Reply>,
    reqBody: seq<Reply>,
    respHeader: Option<Reply>,
    respBody: seq<Reply>,
    sent: seq<Reply>,
    attempts: nat,
    calls: seq<Call>,
    gauge: seq<GaugeOp>,
    hooks: nat)

  const FRESH := Stream(
    RequestReceived, false,
    Ctx(false, false, false, [], map[], map[], map[], map[], None, "", "", 0, false),
    None, [], None, [], [], 0, [], [], 0)

  function RequestReplies(cs: seq<Chunk>): seq<Reply>
  {
    if cs == [] then [] else [RequestBodyReply(cs[0].bytes, cs[0].eos)] + RequestReplies(cs[1..])
  }

  function ResponseReplies(cs: seq<Chunk>): seq<Reply>
  {
    if cs == [] then [] else [ResponseBodyReply(cs[0].bytes, cs[0].eos)] + ResponseReplies(cs[1..])
  }

  lemma {:induction false} RepliesAt(cs: seq<Chunk>)
    ensures |RequestReplies(cs)| == |ResponseReplies(cs)| == |cs|
    ensures forall i :: 0 <= i < |cs| ==> RequestReplies(cs)[i] == RequestBodyReply(cs[i].bytes, cs[i].eos)
    ensures forall i :: 0 <= i < |cs| ==> ResponseReplies(cs)[i] == ResponseBodyReply(cs[i].bytes, cs[i].eos)
  {
    if cs == [] {
    } else {
      RepliesAt(cs[1..]);
    }
  }

  // ---------- One sending pass ----------

  predicate HeaderDue(s: Stream)
  {
    || (s.phase.RequestReceived? && s.reqHeader.Some? && s.ctx.sawHeaders)
    || (s.phase.ResponseReceived? && s.respHeader.Some?)
  }

  predicate RequestBodyDue(s: Stream)
  {
    && |s.reqBody| > 0
    && (|| s.phase.HeaderRequestResponseComplete?
        || (s.phase.RequestReceived? && (HeaderDue(s) || !s.ctx.sawHeaders)))
  }

  predicate ResponseBodyDue(s: Stream)
  {
    && |s.respBody| > 0
    && (|| s.phase.HeaderResponseResponseComplete?
        || (s.phase.ResponseReceived? && HeaderDue(s)))
  }

  function DueHeader(s: Stream): Reply
    requires HeaderDue(s)
  {
    if s.phase.RequestReceived? then s.reqHeader.value else s.respHeader.value
  }

  function DueBody(s: Stream): seq<Reply>
  {
    if RequestBodyDue(s) then s.reqBody else if ResponseBodyDue(s) then s.respBody else []
  }

  /** The replies one pass has to send, in order. */
  function Due(s: Stream): seq<Reply>
  {
    if HeaderDue(s) then [DueHeader(s)] + DueBody(s) else DueBody(s)
  }

  predicate EndsResponse(r: Reply) { r.ResponseBodyReply? && r.eos }

  predicate EndIn(q: seq<Reply>) { exists i :: 0 <= i < |q| && EndsResponse(q[i]) }

  /** The phase once the first k replies of Due(s) are out. */
  function PhaseAfter(s: Stream, k: nat): Phase
    requires k <= |Due(s)|
  {
    if RequestBodyDue(s) && k == |Due(s)| then BodyRequestResponsesComplete
    else if ResponseBodyDue(s) && EndIn(Due(s)[..k]) then BodyResponseResponsesComplete
    else if HeaderDue(s) && k >= 1 then
      if s.phase.RequestReceived? then HeaderRequestResponseComplete else HeaderResponseResponseComplete
    else s.phase
  }

  /** How many of the next n sends succeed before one fails. */
  function Delivered(env: Env, from: nat, n: nat): (k: nat)
    ensures k <= n
    decreases n
  {
    if n == 0 || !env.sendOk(from) then 0 else 1 + Delivered(env, from + 1, n - 1)
  }

  /** The stream after the first k replies of Due(s) went out and the next one, if any, failed. */
  function AfterSends(s: Stream, k: nat): Stream
    requires k <= |Due(s)|
  {
    var out := s.sent + Due(s)[..k];
    if k < |Due(s)| then
      s.(phase := PhaseAfter(s, k), sent := out, attempts := s.attempts + k + 1)
    else if RequestBodyDue(s) then
      s.(phase := BodyRequestResponsesComplete, sent := out, attempts := s.attempts + k,
         gauge := s.gauge + [Inc(s.ctx.model)], running := true, reqBody := [])
    else if ResponseBodyDue(s) then
      s.(phase := PhaseAfter(s, k), sent := out, attempts := s.attempts + k, respBody := [])
    else
      s.(phase := PhaseAfter(s, k), sent := out, attempts := s.attempts + k)
  }

  function Pass(env: Env, s: Stream): Stream
  {
    AfterSends(s, Delivered(env, s.attempts, |Due(s)|))
  }

  predicate PassOk(env: Env, s: Stream) { Delivered(env, s.attempts, |Due(s)|) == |Due(s)| }

  /** The stream right after its due header reply was sent. */
  function HeaderSent(s: Stream): Stream
    requires HeaderDue(s)
  {
    s.(phase := if s.phase.RequestReceived? then HeaderRequestResponseComplete else HeaderResponseResponseComplete,
       sent := s.sent + [DueHeader(s)], attempts := s.attempts + 1)
  }

  lemma HeaderFirstDue(s: Stream)
    requires HeaderDue(s)
    ensures RequestBodyDue(HeaderSent(s)) == RequestBodyDue(s) && ResponseBodyDue(HeaderSent(s)) == ResponseBodyDue(s)
    ensures Due(s) == [DueHeader(s)] + Due(HeaderSent(s))
    ensures HeadersTyped(s) ==> !EndsResponse(DueHeader(s))
  {
  }

  /** The two header slots hold replies of their own kind. */
  predicate HeadersTyped(s: Stream)
  {
    && (s.reqHeader.Some? ==> s.reqHeader.value.RequestHeaderReply?)
    && (s.respHeader.Some? ==> s.respHeader.value.ResponseHeaderReply?)
  }

  lemma HeaderFirstPhase(s: Stream, k: nat)
    requires HeadersTyped(s) && HeaderDue(s) && k <= |Due(HeaderSent(s))|
    ensures k + 1 <= |Due(s)| && Due(s)[..k + 1] == [DueHeader(s)] + Due(HeaderSent(s))[..k]
    ensures PhaseAfter(s, k + 1) == PhaseAfter(HeaderSent(s), k)
  {
    HeaderFirstDue(s);
    var t := HeaderSent(s);
    assert Due(s)[..k + 1] == [DueHeader(s)] + Due(t)[..k];
    EndInCons(DueHeader(s), Due(t)[..k]);
  }

  /** A pass with a header due is: send the header, then make the pass that remains. */
  lemma PassHeaderFirst(env: Env, s: Stream)
    requires HeadersTyped(s) && HeaderDue(s)
    ensures !env.sendOk(s.attempts) ==> Pass(env, s) == s.(attempts := s.attempts + 1) && !PassOk(env, s)
    ensures env.sendOk(s.attempts) ==>
              && Pass(env, s) == Pass(env, HeaderSent(s))
              && PassOk(env, s) == PassOk(env, HeaderSent(s))
  {
    HeaderFirstDue(s);
    if env.sendOk(s.attempts) {
      hide AfterSends, PhaseAfter;
      var k := Delivered(env, HeaderSent(s).attempts, |Due(HeaderSent(s))|);
      assert Delivered(env, s.attempts, |Due(s)|) == k + 1;
      AfterHeader(s, k);
    } else {
      NoneSent(s);
    }
  }

  lemma NoneSent(s: Stream)
    requires Due(s) != []
    ensures AfterSends(s, 0) == s.(attempts := s.attempts + 1)
  {
    assert s.sent + Due(s)[..0] == s.sent;
  }

  lemma AfterHeader(s: Stream, k: nat)
    requires HeadersTyped(s) && HeaderDue(s) && k <= |Due(HeaderSent(s))|
    ensures k + 1 <= |Due(s)| && AfterSends(s, k + 1) == AfterSends(HeaderSent(s), k)
  {
    hide PhaseAfter;
    HeaderFirstDue(s);
    HeaderFirstPhase(s, k);
    var t := HeaderSent(s);
    assert s.sent + Due(s)[..k + 1] == t.sent + Due(t)[..k]
      by { ConcatAssociative(s.sent, [DueHeader(s)], Due(t)[..k]); }
  }

  lemma IdlePass(env: Env, s: Stream)
    requires !HeaderDue(s) && !RequestBodyDue(s) && !ResponseBodyDue(s)
    ensures Due(s) == [] && Pass(env, s) == s && PassOk(env, s)
  {
    assert Delivered(env, s.attempts, 0) == 0;
    assert s.sent + Due(s)[..0] == s.sent;
  }

  function RequestBodySent(s: Stream): Stream
  {
    s.(phase := BodyRequestResponsesComplete, sent := s.sent + s.reqBody, attempts := s.attempts + |s.reqBody|,
       gauge := s.gauge + [Inc(s.ctx.model)], running := true, reqBody := [])
  }

  lemma RequestBodyPass(env: Env, s: Stream, k: nat)
    requires !HeaderDue(s) && RequestBodyDue(s) && k == Delivered(env, s.attempts, |s.reqBody|) <= |s.reqBody|
    ensures PassOk(env, s) == (k == |s.reqBody|)
    ensures k == |s.reqBody| ==> Pass(env, s) == RequestBodySent(s)
    ensures k < |s.reqBody| ==> Pass(env, s) == s.(sent := s.sent + s.reqBody[..k], attempts := s.attempts + k + 1)
  {
    assert Due(s) == s.reqBody;
    if k == |s.reqBody| {
      assert s.reqBody[..k] == s.reqBody;
    }
  }

  function ResponseBodySent(s: Stream): Stream
  {
    s.(phase := if EndIn(s.respBody) then BodyResponseResponsesComplete else s.phase,
       sent := s.sent + s.respBody, attempts := s.attempts + |s.respBody|, respBody := [])
  }

  lemma ResponseBodyPass(env: Env, s: Stream, k: nat)
    requires !HeaderDue(s) && ResponseBodyDue(s) && k == Delivered(env, s.attempts, |s.respBody|) <= |s.respBody|
    ensures PassOk(env, s) == (k == |s.respBody|)
    ensures k == |s.respBody| ==> Pass(env, s) == ResponseBodySent(s)
    ensures k < |s.respBody| ==>
              Pass(env, s) == s.(phase := if EndIn(s.respBody[..k]) then BodyResponseResponsesComplete else s.phase,
                                 sent := s.sent + s.respBody[..k], attempts := s.attempts + k + 1)
  {
    assert Due(s) == s.respBody;
    if k == |s.respBody| {
      assert s.respBody[..k] == s.respBody;
    }
  }

  /**
    One segment of a pass: from s the code reached t. Either its sends all succeeded, and the pass
    from s is what the pass from t will do, or one failed, and t is where the pass from s ends.
  */
  ghost predicate Segment(env: Env, s: Stream, t: Stream, ok: bool)
  {
    if ok then Pass(env, s) == Pass(env, t) && PassOk(env, s) == PassOk(env, t)
    else t == Pass(env, s) && !PassOk(env, s)
  }

  lemma HeaderSegment(env: Env, s: Stream)
    requires HeadersTyped(s) && HeaderDue(s)
    ensures env.sendOk(s.attempts) ==> Segment(env, s, HeaderSent(s), true)
    ensures !env.sendOk(s.attempts) ==> Segment(env, s, s.(attempts := s.attempts + 1), false)
  {
    PassHeaderFirst(env, s);
  }

  lemma RequestBodySegment(env: Env, s: Stream, k: nat)
    requires !HeaderDue(s) && RequestBodyDue(s) && k == Delivered(env, s.attempts, |s.reqBody|) <= |s.reqBody|
    ensures k == |s.reqBody| ==> Segment(env, s, RequestBodySent(s), true)
    ensures k < |s.reqBody| ==>
              Segment(env, s, s.(sent := s.sent + s.reqBody[..k], attempts := s.attempts + k + 1), false)
  {
    RequestBodyPass(env, s, k);
    IdlePass(env, RequestBodySent(s));
  }

  lemma ResponseBodySegment(env: Env, s: Stream, k: nat)
    requires !HeaderDue(s) && ResponseBodyDue(s) && k == Delivered(env, s.attempts, |s.respBody|) <= |s.respBody|
    ensures k == |s.respBody| ==> Segment(env, s, ResponseBodySent(s), true)
    ensures k < |s.respBody| ==>
              Segment(env, s,
                      s.(phase := if EndIn(s.respBody[..k]) then BodyResponseResponsesComplete else s.phase,
                         sent := s.sent + s.respBody[..k], attempts := s.attempts + k + 1),
                      false)
  {
    ResponseBodyPass(env, s, k);
    IdlePass(env, ResponseBodySent(s));
  }

  lemma EndInNone()
    ensures !EndIn([])
  {
  }

  lemma EndInCons(r: Reply, q: seq<Reply>)
    ensures EndIn([r] + q) == (EndsResponse(r) || EndIn(q))
  {
    var p := [r] + q;
    if EndsResponse(r) { assert EndsResponse(p[0]); }
    if EndIn(q) {
      var i :| 0 <= i < |q| && EndsResponse(q[i]);
      assert EndsResponse(p[i + 1]);
    }
    if EndIn(p) && !EndsResponse(r) {
      var i :| 0 <= i < |p| && EndsResponse(p[i]);
      assert EndsResponse(q[i - 1]);
    }
  }

  lemma EndInSnoc(q: seq<Reply>, r: Reply)
    ensures EndIn(q + [r]) == (EndIn(q) || EndsResponse(r))
  {
    var p := q + [r];
    if EndsResponse(r) { assert EndsResponse(p[|q|]); }
    if EndIn(q) {
      var i :| 0 <= i < |q| && EndsResponse(q[i]);
      assert EndsResponse(p[i]);
    }
    if EndIn(p) && !EndsResponse(r) {
      var i :| 0 <= i < |p| && EndsResponse(p[i]);
      assert EndsResponse(q[i]);
    }
  }

  // ---------- One message ----------

  predicate MatchesAt(s: string, t: string, i: nat)
  {
    i + |t| <= |s| && s[i..i + |t|] == t
  }

  predicate Contains(s: string, t: string)
  {
    exists i :: 0 <= i <= |s| && MatchesAt(s, t, i)
  }

  predicate BadStatus(f: Field) { f.key == "status" && f.value != "200" }
  predicate EventStream(f: Field) { f.key == "content-type" && Contains(f.value, "text/event-stream") }

  predicate AnyBadStatus(fs: seq<Field>) { exists f | f in fs :: BadStatus(f) }
  predicate AnyEventStream(fs: seq<Field>) { exists f | f in fs :: EventStream(f) }

  lemma AnyNone()
    ensures !AnyBadStatus([]) && !AnyEventStream([])
  {
  }

  lemma AnySnoc(fs: seq<Field>, f: Field)
    ensures AnyBadStatus(fs + [f]) == (AnyBadStatus(fs) || BadStatus(f))
    ensures AnyEventStream(fs + [f]) == (AnyEventStream(fs) || EventStream(f))
  {
    assert forall g :: g in fs + [f] <==> g in fs || g == f;
  }

  datatype Absorbed = Absorbed(st: Stream, err: Option<ErrCode>)

  function AbsorbRequestHeaders(
    env: Env, s: Stream, requestId: string, freshId: string, fields: seq<Field>, eos: bool): Absorbed
  {
    var known := if requestId == "" then s.ctx.headers[REQUEST_ID_KEY := freshId] else s.ctx.headers;
    var r := env.onHeaders(fields, eos, known);
    var endpoint := if r.early.Some? then r.early.value else s.ctx.endpoint;
    Absorbed(
      s.(ctx := s.ctx.(sawHeaders := true, headers := r.headers, endpoint := endpoint),
         reqHeader := if r.early.Some? then Some(RequestHeaderReply(endpoint, s.ctx.size, r.headers)) else s.reqHeader),
      r.err)
  }

  /** The one-shot request handler: the whole body is at hand. */
  function HandleWholeRequest(env: Env, s: Stream, whole: Bytes): Absorbed
  {
    match env.decode(whole, s.ctx.doc)
    case None => Absorbed(s.(ctx := s.ctx.(body := whole)), Some(BadRequest))
    case Some(d) =>
      var view := RequestView(s.ctx.headers, d, s.ctx.metadata);
      var r := env.route(|s.calls|, view);
      var c := s.ctx.(body := [], target := r.pod, endpoint := r.endpoint, model := r.model,
                      headers := r.headers, doc := r.doc);
      var t := s.(ctx := c, calls := s.calls + [HandleRequest(view)]);
      if r.err.Some? then Absorbed(t, r.err)
      else match env.encode(r.doc)
           case None => Absorbed(t, None)  // the marshalling error is shadowed: nothing is reported
           case Some(b) =>
             Absorbed(
               t.(ctx := c.(size := |b|),
                  reqHeader := Some(RequestHeaderReply(c.endpoint, |b|, c.headers)),
                  reqBody := RequestReplies(env.split(b, true))),
               None)
  }

  function AbsorbResponseHeaders(s: Stream, fields: seq<Field>): Stream
  {
    s.(ctx := s.ctx.(errStatus := s.ctx.errStatus || AnyBadStatus(fields),
                     streaming := s.ctx.streaming || AnyEventStream(fields)),
       phase := ResponseReceived,
       calls := s.calls + [HandleResponseReceived],
       respHeader := Some(ResponseHeaderReply(fields)))
  }

  function HandleWholeResponse(env: Env, s: Stream, whole: Bytes): Stream
  {
    match env.decode(whole, s.ctx.respDoc)
    case None => s.(ctx := s.ctx.(body := whole), respBody := ResponseReplies(env.split(whole, true)))
    case Some(d) =>
      var r := env.onResponse(|s.calls|, d);
      s.(ctx := s.ctx.(body := whole, respDoc := d, complete := s.ctx.complete || r.completed),
         hooks := s.hooks + (if r.completed then 1 else 0),
         respBody := if r.payload.Some? then ResponseReplies(env.split(r.payload.value, true)) else s.respBody)
  }

  function AbsorbResponseBody(env: Env, s: Stream, chunk: Bytes, eos: bool): Stream
  {
    if s.ctx.streaming then
      s.(ctx := s.ctx.(complete := s.ctx.complete || eos),
         calls := s.calls + [HandleResponseBodyStreaming(chunk)],
         hooks := s.hooks + (if eos then 1 else 0),
         respBody := ResponseReplies(env.split(chunk, eos)))
    else if eos then HandleWholeResponse(env, s, s.ctx.body + chunk)
    else s.(ctx := s.ctx.(body := s.ctx.body + chunk))
  }

  function Absorb(env: Env, s: Stream, m: Msg): Absorbed
  {
    match m
    case RequestHeaders(id, freshId, fields, eos) => AbsorbRequestHeaders(env, s, id, freshId, fields, eos)
    case RequestBody(chunk, eos) =>
      if eos then HandleWholeRequest(env, s, s.ctx.body + chunk)
      else Absorbed(s.(ctx := s.ctx.(body := s.ctx.body + chunk)), None)
    case ResponseHeaders(fields) => Absorbed(AbsorbResponseHeaders(s, fields), None)
    case ResponseBody(chunk, eos) => Absorbed(AbsorbResponseBody(env, s, chunk, eos), None)
    case RequestTrailers => Absorbed(s, None)
    case ResponseTrailers => Absorbed(s, None)
  }

  /** Why Process returns. */
  datatype Exit = ContextDone | Closed | ReceiveFailed | Rejected | Unreportable | SendFailed

  datatype Outcome = Outcome(st: Stream, exit: Option<Exit>)

  /** The HTTP status of an immediate reply; codes outside the table have none. */
  function StatusOf(e: ErrCode): Option<nat>
  {
    match e
    case ResourceExhausted => Some(429)
    case Internal => Some(500)
    case ServiceUnavailable => Some(503)
    case BadRequest => Some(400)
    case BadConfiguration => Some(404)
    case Unmapped => None
  }

  function ReplyError(env: Env, s: Stream, e: ErrCode): Outcome
  {
    if StatusOf(e).None? then Outcome(s, Some(Unreportable))
    else if env.sendOk(s.attempts) then
      Outcome(s.(sent := s.sent + [ImmediateReply(StatusOf(e).value)], attempts := s.attempts + 1), Some(Rejected))
    else Outcome(s.(attempts := s.attempts + 1), Some(SendFailed))
  }

  /** One turn of the receive loop. */
  function Step(env: Env, s: Stream, m: Req): Outcome
  {
    var a := Absorb(env, s.(ctx := s.ctx.(metadata := m.metadata)), m.msg);
    if a.err.Some? then ReplyError(env, a.st, a.err.value)
    else Outcome(Pass(env, a.st), if PassOk(env, a.st) then None else Some(SendFailed))
  }

  /** The receive loop over a finite run of messages; it stops early when a turn exits. */
  function Run(env: Env, s: Stream, ms: seq<Req>): Outcome
    decreases |ms|
  {
    if ms == [] then Outcome(s, None)
    else
      var o := Step(env, s, ms[0]);
      if o.exit.Some? then o else Run(env, o.st, ms[1..])
  }

  /** The deferred function of Process. */
  function Teardown(s: Stream): Stream
  {
    s.(gauge := if s.running then s.gauge + [Dec(s.ctx.model)] else s.gauge,
       hooks := s.hooks + (if s.ctx.target.Some? && !s.ctx.complete then 1 else 0))
  }

  /** A whole call of Process: a run of messages, then `end` unless a turn exited before. */
  function Process(env: Env, ms: seq<Req>, end: Exit): Outcome
  {
    var o := Run(env, FRESH, ms);
    Outcome(Teardown(o.st), if o.exit.Some? then o.exit else Some(end))
  }

  /** The request handler depends on the whole body only, not on the buffer it was collected in. */
  lemma WholeRequestIgnoresBuffer(env: Env, s: Stream, whole: Bytes)
    ensures HandleWholeRequest(env, s.(ctx := s.ctx.(body := whole)), whole) == HandleWholeRequest(env, s, whole)
  {
  }

  lemma WholeResponseIgnoresBuffer(env: Env, s: Stream, whole: Bytes)
    ensures HandleWholeResponse(env, s.(ctx := s.ctx.(body := whole)), whole) == HandleWholeResponse(env, s, whole)
  {
  }

  // ---------- Basic facts about runs ----------

  /** Receiving a message sends nothing; only ResponseHeaders touches the phase. */
  lemma AbsorbFrame(env: Env, s: Stream, m: Msg)
    ensures Absorb(env, s, m).st.sent == s.sent
    ensures Absorb(env, s, m).st.attempts == s.attempts
    ensures Absorb(env, s, m).st.running == s.running
    ensures Absorb(env, s, m).st.gauge == s.gauge
    ensures Absorb(env, s, m).st.phase == if m.ResponseHeaders? then ResponseReceived else s.phase
    ensures m.ResponseHeaders? ==> Absorb(env, s, m).st.respHeader.Some?
  {
  }

  lemma AbsorbTyped(env: Env, s: Stream, m: Msg)
    requires HeadersTyped(s)
    ensures HeadersTyped(Absorb(env, s, m).st)
  {
  }

  lemma StepTyped(env: Env, s: Stream, m: Req)
    requires HeadersTyped(s)
    ensures HeadersTyped(Step(env, s, m).st)
  {
    AbsorbTyped(env, s.(ctx := s.ctx.(metadata := m.metadata)), m.msg);
    hide Absorb;
  }

  lemma {:induction false} RunAppend(env: Env, s: Stream, a: seq<Req>, b: seq<Req>)
    ensures Run(env, s, a + b)
         == if Run(env, s, a).exit.Some? then Run(env, s, a) else Run(env, Run(env, s, a).st, b)
    decreases |a|
  {
    if a == [] {
      assert a + b == b;
    } else {
      assert (a + b)[0] == a[0] && (a + b)[1..] == a[1..] + b;
      var o := Step(env, s, a[0]);
      if o.exit.None? {
        RunAppend(env, o.st, a[1..], b);
      }
    }
  }

  lemma FirstMessage(env: Env, s: Stream, ms: seq<Req>)
    requires ms != []
    ensures Run(env, s, ms) == if Step(env, s, ms[0]).exit.Some? then Step(env, s, ms[0])
                               else Run(env, Step(env, s, ms[0]).st, ms[1..])
  {
    hide Step;
  }

  lemma OneMessage(env: Env, s: Stream, m: Req)
    ensures Run(env, s, [m]) == Step(env, s, m)
  {
    hide Step;
    assert [m][1..] == [];
    var o := Step(env, s, m);
    assert Run(env, o.st, []) == Outcome(o.st, None);
  }

  /** A turn that does not exit leaves nothing due: every sendable reply has gone out. */
  lemma StepSettles(env: Env, s: Stream, m: Req)
    requires Step(env, s, m).exit.None?
    ensures Due(Step(env, s, m).st) == []
  {
  }

  lemma {:induction false} RunSettles(env: Env, s: Stream, ms: seq<Req>)
    requires Due(s) == [] && Run(env, s, ms).exit.None?
    ensures Due(Run(env, s, ms).st) == []
    decreases |ms|
  {
    if ms == [] {
    } else {
      StepSettles(env, s, ms[0]);
      RunSettles(env, Step(env, s, ms[0]).st, ms[1..]);
    }
  }
}
