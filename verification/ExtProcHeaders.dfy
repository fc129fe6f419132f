/**
  The header replies over every run: where each comes from, and that response headers go back as they came. And
  what the headers of a response decide about it.
*/
module ExtProcHeaders {
  import opened Basics
  import opened ExtProc
  import opened ExtProcOrder
  import opened ExtProcBodies

  // ---------- What a turn sends ----------

  /** The message absorbed, before anything is sent. */
  function Taken(env: Env, s: Stream, m: Req): Absorbed
  {
    Absorb(env, s.(ctx := s.ctx.(metadata := m.metadata)), m.msg)
  }

  /** A turn adds to what was sent: an immediate reply after an error, else the replies due, or the first of them. */
  lemma TurnSends(env: Env, s: Stream, m: Req)
    ensures var a, o := Taken(env, s, m), Step(env, s, m);
            && s.sent <= o.st.sent
            && (a.err.Some? ==>
                  o.exit.Some? && forall j :: |s.sent| <= j < |o.st.sent| ==> o.st.sent[j].ImmediateReply?)
            && (a.err.None? ==> o.st.sent[|s.sent|..] <= Due(a.st))
            && (o.exit.None? ==> o.st.sent == s.sent + Due(a.st))
  {
    var a := Taken(env, s, m);
    AbsorbFrame(env, s.(ctx := s.ctx.(metadata := m.metadata)), m.msg);
    hide Absorb, Due, EndIn;
    if a.err.None? {
      var k := Delivered(env, a.st.attempts, |Due(a.st)|);
      assert Pass(env, a.st).sent == s.sent + Due(a.st)[..k];
    }
  }

  // ---------- How a stream ends ----------

  /** Every send attempt but a failing last one delivered its reply; the exit tells which it was. */
  predicate Accounted(env: Env, s: Stream, exit: Option<Exit>)
  {
    if exit == Some(SendFailed) then s.attempts == |s.sent| + 1 && !env.sendOk(|s.sent|)
    else
      && s.attempts == |s.sent|
      && (exit == Some(Rejected) ==> s.sent != [] && s.sent[|s.sent| - 1].ImmediateReply?)
  }

  lemma {:induction false} StopsAtFailure(env: Env, from: nat, n: nat)
    ensures var k := Delivered(env, from, n); k < n ==> !env.sendOk(from + k)
    decreases n
  {
    if n == 0 || !env.sendOk(from) {
    } else {
      StopsAtFailure(env, from + 1, n - 1);
    }
  }

  lemma TurnAccounted(env: Env, s: Stream, m: Req)
    requires s.attempts == |s.sent|
    ensures Accounted(env, Step(env, s, m).st, Step(env, s, m).exit)
  {
    var a := Taken(env, s, m);
    AbsorbFrame(env, s.(ctx := s.ctx.(metadata := m.metadata)), m.msg);
    hide Absorb, Due, EndIn;
    if a.err.None? {
      var k := Delivered(env, a.st.attempts, |Due(a.st)|);
      StopsAtFailure(env, a.st.attempts, |Due(a.st)|);
      assert |s.sent + Due(a.st)[..k]| == |s.sent| + k;
    }
  }

  lemma {:induction false} RunAccounted(env: Env, s: Stream, ms: seq<Req>)
    requires s.attempts == |s.sent|
    ensures Accounted(env, Run(env, s, ms).st, Run(env, s, ms).exit)
    decreases |ms|
  {
    hide Step;
    if ms == [] {
    } else {
      TurnAccounted(env, s, ms[0]);
      if Step(env, s, ms[0]).exit.None? { RunAccounted(env, Step(env, s, ms[0]).st, ms[1..]); }
    }
  }

  /**
    Every call of Process: all sends before the last one succeeded; it returns with a send error exactly if the
    last one failed, and as rejected only after an immediate reply.
  */
  lemma {:induction false} EndsAccounted(env: Env, ms: seq<Req>, end: Exit)
    requires end != SendFailed && end != Rejected
    ensures Accounted(env, Process(env, ms, end).st, Process(env, ms, end).exit)
  {
    hide Run;
    RunAccounted(env, FRESH, ms);
  }

  // ---------- The request header reply ----------

  /** The reply tells what the last director call answered; that answer was marshalled to the size it names. */
  predicate FromDirector(env: Env, calls: seq<Call>, r: Reply)
  {
    && calls != [] && calls[|calls| - 1].HandleRequest?
    && var answer := env.route(|calls| - 1, calls[|calls| - 1].view);
       && answer.err.None? && env.encode(answer.doc).Some?
       && r == RequestHeaderReply(answer.endpoint, |env.encode(answer.doc).value|, answer.headers)
  }

  /** The reply tells the endpoint the helper named early, asked with a request id at hand. */
  ghost predicate FromHelper(env: Env, m: Msg, r: Reply)
  {
    && m.RequestHeaders?
    && exists known: Headers ::
         && (m.requestId == "" ==> "x-request-id" in known && known["x-request-id"] == m.freshId)
         && var e := env.onHeaders(m.fields, m.eos, known);
            e.early.Some? && r == RequestHeaderReply(e.early.value, 0, e.headers)
  }

  /** Between turns: nothing is due, no header reply waits, and no request has been marshalled before a reply. */
  predicate Idle(s: Stream)
  {
    && Due(s) == [] && !s.phase.ResponseReceived?
    && (s.phase.RequestReceived? ==> s.reqHeader.None? && s.ctx.size == 0)
  }

  /** Where the request header reply of this turn, if it sends one, comes from. */
  ghost predicate Origin(env: Env, m: Msg, calls: seq<Call>, r: Reply)
  {
    FromHelper(env, m, r) || (m.RequestBody? && m.eos && FromDirector(env, calls, r))
  }

  /** A header reply is due for a fresh reason only: the message at hand. */
  lemma DueHeaders(env: Env, s: Stream, m: Req)
    requires Idle(s) && Taken(env, s, m).err.None? && HeaderDue(Taken(env, s, m).st)
    ensures var a := Taken(env, s, m).st;
            && (a.phase.RequestReceived? ==> Origin(env, m.msg, a.calls, DueHeader(a)))
            && (a.phase.ResponseReceived? ==>
                  m.msg.ResponseHeaders? && DueHeader(a) == ResponseHeaderReply(m.msg.fields))
  {
    hide RequestReplies, ResponseReplies, AnyBadStatus, AnyEventStream, Due;
    match m.msg
    case RequestHeaders(id, freshId, fields, eos) =>
      var known := if id == "" then s.ctx.headers["x-request-id" := freshId] else s.ctx.headers;
      var e := env.onHeaders(fields, eos, known);
      assert e.early.Some? ==> FromHelper(env, m.msg, RequestHeaderReply(e.early.value, 0, e.headers));
    case RequestBody(chunk, eos) =>
      if eos { DirectorHeader(env, s.(ctx := s.ctx.(metadata := m.metadata)), s.ctx.body + chunk); }
    case _ =>
  }

  lemma DirectorHeader(env: Env, s: Stream, whole: Bytes)
    requires HandleWholeRequest(env, s, whole).err.None?
    ensures var a := HandleWholeRequest(env, s, whole).st;
            && a.phase == s.phase && a.respHeader == s.respHeader
            && (a.reqHeader == s.reqHeader || (a.reqHeader.Some? && FromDirector(env, a.calls, a.reqHeader.value)))
  {
    hide RequestReplies;
  }

  lemma DueKinds(env: Env, s: Stream, j: nat)
    requires SlotsTyped(env, s) && j < |Due(s)|
    ensures Due(s)[j].RequestHeaderReply? ==> HeaderDue(s) && s.phase.RequestReceived? && Due(s)[j] == DueHeader(s)
    ensures Due(s)[j].ResponseHeaderReply? ==>
              j == 0 && HeaderDue(s) && s.phase.ResponseReceived? && Due(s)[j] == DueHeader(s)
  {
    hide IsBatch;
  }

  lemma IdleKept(env: Env, s: Stream, m: Req, n: nat)
    requires env.Contract() && Live(env, s, n) && Idle(s) && Step(env, s, m).exit.None?
    ensures Idle(Step(env, s, m).st)
  {
    StepKeeps(env, s, m, n);
    LivePhase(env, Step(env, s, m).st, n + Count(m.msg));
    if Step(env, s, m).st.phase.RequestReceived? { StillNone(env, s, m); }
  }

  /** A header reply that was queued in the first phase has gone out, and the phase is another one. */
  lemma StillNone(env: Env, s: Stream, m: Req)
    requires env.Contract() && Idle(s) && Step(env, s, m).exit.None? && Step(env, s, m).st.phase.RequestReceived?
    ensures Step(env, s, m).st.reqHeader.None? && Step(env, s, m).st.ctx.size == 0
  {
    var a := Taken(env, s, m);
    TurnPass(env, s, m);
    hide Step, Pass, PassOk, Due;
    PassMoves(env, a.st);
    AbsorbFrame(env, s.(ctx := s.ctx.(metadata := m.metadata)), m.msg);
    TakenHeader(env, s, m);
  }

  lemma TurnPass(env: Env, s: Stream, m: Req)
    requires Step(env, s, m).exit.None?
    ensures var a := Taken(env, s, m); a.err.None? && PassOk(env, a.st) && Step(env, s, m).st == Pass(env, a.st)
  {
    hide Absorb, Pass, PassOk;
  }

  /** A queued header reply comes with seen headers or a body. */
  lemma TakenHeader(env: Env, s: Stream, m: Req)
    requires env.Contract() && Taken(env, s, m).err.None? && !m.msg.ResponseHeaders?
    ensures var a := Taken(env, s, m).st;
            (a.reqHeader == s.reqHeader && a.ctx.size == s.ctx.size)
            || (a.reqHeader.Some? && (a.ctx.sawHeaders || a.reqBody != []))
  {
    var s1 := s.(ctx := s.ctx.(metadata := m.metadata));
    if m.msg.RequestBody? {
      if m.msg.eos { Requested(env, s1, s.ctx.body + m.msg.chunk); }
      hide HandleWholeRequest, GoodSplit;
    } else {
      hide Absorb, GoodSplit;
      OtherHeader(env, s1, m.msg);
    }
  }

  lemma OtherHeader(env: Env, s: Stream, m: Msg)
    requires !m.RequestBody? && !m.ResponseHeaders?
    ensures var a := Absorb(env, s, m).st;
            (a.reqHeader == s.reqHeader && a.ctx.size == s.ctx.size) || (a.reqHeader.Some? && a.ctx.sawHeaders)
  {
    hide ResponseReplies, HandleWholeRequest, AbsorbResponseHeaders;
    match m
    case RequestHeaders(id, freshId, fields, eos) =>
    case ResponseBody(chunk, eos) =>
      match env.decode(s.ctx.body + chunk, s.ctx.respDoc) {
        case None =>
        case Some(d) =>
      }
    case _ =>
  }

  /** A pass that ends in the first phase had no header reply to send and no body without one. */
  lemma PassMoves(env: Env, s: Stream)
    requires PassOk(env, s) && Pass(env, s).phase.RequestReceived?
    ensures s.phase.RequestReceived? && !(s.reqHeader.Some? && s.ctx.sawHeaders)
    ensures s.ctx.sawHeaders || s.reqBody == []
    ensures Pass(env, s).reqHeader == s.reqHeader && Pass(env, s).ctx == s.ctx
  {
    hide EndIn;
  }

  lemma Requested(env: Env, s: Stream, whole: Bytes)
    requires env.Contract() && HandleWholeRequest(env, s, whole).err.None?
    ensures var a := HandleWholeRequest(env, s, whole).st;
            (a.reqHeader == s.reqHeader && a.ctx.size == s.ctx.size) || (a.reqHeader.Some? && a.reqBody != [])
  {
    hide RequestReplies, GoodSplit, HandleWholeRequest;
    var d := Decoded(env, s, whole);
    QueuedReplies(env, s, whole, d);
    var r := env.route(|s.calls|, RequestView(s.ctx.headers, d, s.ctx.metadata));
    match env.encode(r.doc)
    case None =>
    case Some(b) => BatchNotEmpty(env, b);
  }

  lemma Decoded(env: Env, s: Stream, whole: Bytes) returns (d: Json)
    requires HandleWholeRequest(env, s, whole).err.None?
    ensures env.decode(whole, s.ctx.doc) == Some(d)
    ensures env.route(|s.calls|, RequestView(s.ctx.headers, d, s.ctx.metadata)).err.None?
  {
    hide RequestReplies;
    d := env.decode(whole, s.ctx.doc).value;
  }

  // ---------- Every run ----------

  /** Where the header replies of one turn come from. */
  lemma HeadersOfTurn(env: Env, s: Stream, m: Req, n: nat, j: nat)
    requires env.Contract() && Live(env, s, n) && Idle(s)
    requires |s.sent| <= j < |Step(env, s, m).st.sent|
    ensures var r := Step(env, s, m).st.sent[j];
            && (r.RequestHeaderReply? ==> Origin(env, m.msg, Step(env, s, m).st.calls, r))
            && (r.ResponseHeaderReply? ==> m.msg.ResponseHeaders? && r == ResponseHeaderReply(m.msg.fields))
  {
    TurnSends(env, s, m);
    TurnCalls(env, s, m);
    AbsorbKeeps(env, s, m, n);
    var a := Taken(env, s, m);
    if a.err.None? {
      var k := j - |s.sent|;
      assert Step(env, s, m).st.sent[j] == Step(env, s, m).st.sent[|s.sent|..][k] == Due(a.st)[k];
      DueKinds(env, a.st, k);
      if HeaderDue(a.st) { DueHeaders(env, s, m); }
    }
  }

  lemma TurnCalls(env: Env, s: Stream, m: Req)
    ensures Step(env, s, m).st.calls == Taken(env, s, m).st.calls
  {
    hide Absorb, EndIn;
  }

  /** The turn that sent the reply of this index, and what it was about. */
  ghost predicate SentFor(env: Env, s: Stream, ms: seq<Req>, j: nat, r: Reply)
  {
    && j < |ms| && Run(env, s, ms[..j]).exit.None?
    && Origin(env, ms[j].msg, Run(env, s, ms[..j + 1]).st.calls, r)
  }

  lemma {:induction false} HeaderOrigin(env: Env, s: Stream, ms: seq<Req>, n: nat, i: nat)
    requires env.Contract() && Live(env, s, n) && Idle(s)
    requires |s.sent| <= i < |Run(env, s, ms).st.sent| && Run(env, s, ms).st.sent[i].RequestHeaderReply?
    ensures exists j: nat :: SentFor(env, s, ms, j, Run(env, s, ms).st.sent[i])
    decreases |ms|
  {
    hide Step, Live, Idle, Origin;
    if ms == [] {
    } else {
      var o := Step(env, s, ms[0]);
      FirstTurn(env, s, ms);
      TurnSends(env, s, ms[0]);
      if i < |o.st.sent| {
        if o.exit.None? { SentGrows(env, o.st, ms[1..]); }
        HeadersOfTurn(env, s, ms[0], n, i);
        assert SentFor(env, s, ms, 0, o.st.sent[i]);
      } else {
        StepKeeps(env, s, ms[0], n);
        IdleKept(env, s, ms[0], n);
        HeaderOrigin(env, o.st, ms[1..], n + Count(ms[0].msg), i);
        var j: nat :| SentFor(env, o.st, ms[1..], j, Run(env, s, ms).st.sent[i]);
        LaterTurn(env, s, ms, j);
        assert SentFor(env, s, ms, j + 1, Run(env, s, ms).st.sent[i]);
      }
    }
  }

  lemma FirstTurn(env: Env, s: Stream, ms: seq<Req>)
    requires ms != []
    ensures ms[..0] == [] && ms[..1] == [ms[0]] && Run(env, s, ms[..0]) == Outcome(s, None)
    ensures Run(env, s, ms[..1]) == Step(env, s, ms[0])
    ensures Run(env, s, ms) == if Step(env, s, ms[0]).exit.Some? then Step(env, s, ms[0])
                               else Run(env, Step(env, s, ms[0]).st, ms[1..])
  {
    hide Step;
    OneMessage(env, s, ms[0]);
    FirstMessage(env, s, ms);
  }

  lemma LaterTurn(env: Env, s: Stream, ms: seq<Req>, j: nat)
    requires ms != [] && j < |ms[1..]| && Step(env, s, ms[0]).exit.None?
    ensures Run(env, s, ms[..j + 1]) == Run(env, Step(env, s, ms[0]).st, ms[1..][..j])
    ensures Run(env, s, ms[..j + 2]) == Run(env, Step(env, s, ms[0]).st, ms[1..][..j + 1])
  {
    hide Step;
    assert ms[..j + 1][1..] == ms[1..][..j] && ms[..j + 2][1..] == ms[1..][..j + 1];
  }

  lemma {:induction false} SentGrows(env: Env, s: Stream, ms: seq<Req>)
    ensures s.sent <= Run(env, s, ms).st.sent
    decreases |ms|
  {
    hide Step;
    if ms == [] {
    } else {
      TurnSends(env, s, ms[0]);
      if Step(env, s, ms[0]).exit.None? { SentGrows(env, Step(env, s, ms[0]).st, ms[1..]); }
    }
  }

  /**
    Every run: a request header reply was sent in the turn of a header message for which the helper named an
    endpoint early, and tells that endpoint; or in the turn of the last chunk of a request, and tells what the
    director answered in that turn.
  */
  lemma {:induction false} HeaderReplyOrigin(env: Env, ms: seq<Req>, end: Exit, i: nat)
    requires env.Contract() && i < |Process(env, ms, end).st.sent|
    requires Process(env, ms, end).st.sent[i].RequestHeaderReply?
    ensures exists j: nat :: SentFor(env, FRESH, ms, j, Process(env, ms, end).st.sent[i])
  {
    hide Run, Live, SentFor;
    FreshLive(env);
    HeaderOrigin(env, FRESH, ms, 0, i);
  }

  // ---------- Response headers ----------

  function ResponseHeadersIn(t: seq<Reply>): seq<Reply>
  {
    if t == [] then [] else (if t[0].ResponseHeaderReply? then [t[0]] else []) + ResponseHeadersIn(t[1..])
  }

  lemma {:induction false} ResponseHeadersAppend(t: seq<Reply>, u: seq<Reply>)
    ensures ResponseHeadersIn(t + u) == ResponseHeadersIn(t) + ResponseHeadersIn(u)
    decreases |t|
  {
    if t == [] {
      assert t + u == u;
    } else {
      assert (t + u)[0] == t[0] && (t + u)[1..] == t[1..] + u;
      ResponseHeadersAppend(t[1..], u);
      var h := if t[0].ResponseHeaderReply? then [t[0]] else [];
      ConcatAssociative(h, ResponseHeadersIn(t[1..]), ResponseHeadersIn(u));
    }
  }

  lemma {:induction false} NoResponseHeaders(t: seq<Reply>)
    requires forall j :: 0 <= j < |t| ==> !t[j].ResponseHeaderReply?
    ensures ResponseHeadersIn(t) == []
    decreases |t|
  {
    if t == [] {
    } else {
      NoResponseHeaders(t[1..]);
    }
  }

  /** The replies Envoy is due for the response headers of a run. */
  function Echoes(ms: seq<Req>): seq<Reply>
  {
    if ms == [] then []
    else (if ms[0].msg.ResponseHeaders? then [ResponseHeaderReply(ms[0].msg.fields)] else []) + Echoes(ms[1..])
  }

  lemma EchoTurn(env: Env, s: Stream, m: Req, n: nat)
    requires env.Contract() && Live(env, s, n) && Idle(s)
    ensures var e := if m.msg.ResponseHeaders? then [ResponseHeaderReply(m.msg.fields)] else [];
            var before, after := ResponseHeadersIn(s.sent), ResponseHeadersIn(Step(env, s, m).st.sent);
            && (after == before || after == before + e)
            && (Step(env, s, m).exit.None? ==> after == before + e)
  {
    hide Live, Idle, Origin;
    TurnSends(env, s, m);
    var sent := Step(env, s, m).st.sent;
    var added := sent[|s.sent|..];
    assert sent == s.sent + added;
    ResponseHeadersAppend(s.sent, added);
    forall j | 0 <= j < |added|
      ensures added[j].ResponseHeaderReply? ==> m.msg.ResponseHeaders? && added[j] == ResponseHeaderReply(m.msg.fields)
    {
      HeadersOfTurn(env, s, m, n, |s.sent| + j);
    }
    assert ResponseHeadersIn(s.sent) + [] == ResponseHeadersIn(s.sent);
    if m.msg.ResponseHeaders? {
      EchoDue(env, s, m, n);
      hide Step, Due, DueBody;
      if added != [] {
        assert added[0] == Due(Taken(env, s, m).st)[0];
        forall j | 0 <= j < |added[1..]| ensures !added[1..][j].ResponseHeaderReply? {
          assert added[1..][j] == Due(Taken(env, s, m).st)[j + 1];
        }
        NoResponseHeaders(added[1..]);
        assert ResponseHeadersIn(added) == [added[0]] + [];
      }
    } else {
      NoResponseHeaders(added);
    }
  }

  lemma EchoDue(env: Env, s: Stream, m: Req, n: nat)
    requires env.Contract() && Live(env, s, n) && m.msg.ResponseHeaders?
    ensures var a := Taken(env, s, m);
            && a.err.None? && Due(a.st) != [] && Due(a.st)[0] == ResponseHeaderReply(m.msg.fields)
            && forall j :: 1 <= j < |Due(a.st)| ==> !Due(a.st)[j].ResponseHeaderReply?
  {
    AbsorbKeeps(env, s, m, n);
    var a := Taken(env, s, m);
    assert a.st.phase.ResponseReceived? && a.st.respHeader == Some(ResponseHeaderReply(m.msg.fields)) by {
      hide AnyBadStatus, AnyEventStream;
    }
    hide Live, Absorb;
    forall j | 0 <= j < |Due(a.st)| ensures Due(a.st)[j].ResponseHeaderReply? ==> j == 0 { DueKinds(env, a.st, j); }
  }

  lemma {:induction false} EchoRun(env: Env, s: Stream, ms: seq<Req>, n: nat)
    requires env.Contract() && Live(env, s, n) && Idle(s)
    ensures ResponseHeadersIn(Run(env, s, ms).st.sent) <= ResponseHeadersIn(s.sent) + Echoes(ms)
    ensures Run(env, s, ms).exit.None? ==>
              ResponseHeadersIn(Run(env, s, ms).st.sent) == ResponseHeadersIn(s.sent) + Echoes(ms)
    decreases |ms|
  {
    hide Step, Live, Idle, ResponseHeadersIn;
    var before := ResponseHeadersIn(s.sent);
    if ms == [] {
      assert before + [] == before;
    } else {
      var o := Step(env, s, ms[0]);
      var e := if ms[0].msg.ResponseHeaders? then [ResponseHeaderReply(ms[0].msg.fields)] else [];
      EchoTurn(env, s, ms[0], n);
      ConcatAssociative(before, e, Echoes(ms[1..]));
      if o.exit.None? {
        StepKeeps(env, s, ms[0], n);
        IdleKept(env, s, ms[0], n);
        EchoRun(env, o.st, ms[1..], n + Count(ms[0].msg));
      }
    }
  }

  /** Every run: response headers go back as they came, in order, all of them while the stream is up. */
  lemma {:induction false} ResponseHeadersEchoed(env: Env, ms: seq<Req>, end: Exit)
    requires env.Contract()
    ensures ResponseHeadersIn(Process(env, ms, end).st.sent) <= Echoes(ms)
    ensures Run(env, FRESH, ms).exit.None? ==> ResponseHeadersIn(Process(env, ms, end).st.sent) == Echoes(ms)
  {
    hide Run, Live;
    FreshLive(env);
    EchoRun(env, FRESH, ms, 0);
    assert [] + Echoes(ms) == Echoes(ms);
  }

  // ---------- What response headers decide ----------

  lemma ContainsIff(s: string, t: string)
    ensures Contains(s, t) <==> exists a, b :: s == a + t + b
  {
    if Contains(s, t) {
      var i :| 0 <= i <= |s| && MatchesAt(s, t, i);
      assert s == s[..i] + t + s[i + |t|..];
    }
    if exists a, b :: s == a + t + b {
      var a, b :| s == a + t + b;
      assert s[|a|..|a| + |t|] == t;
      assert MatchesAt(s, t, |a|);
    }
  }

  /** Some response header so far names the event stream type, with or without parameters. */
  ghost predicate EventStreamSeen(ms: seq<Req>)
  {
    exists i, f, a, b :: 0 <= i < |ms| && ms[i].msg.ResponseHeaders? && f in ms[i].msg.fields
                         && f == Field("content-type", a + "text/event-stream" + b)
  }

  /** Some response header so far names a status other than 200. */
  ghost predicate ErrorSeen(ms: seq<Req>)
  {
    exists i, f :: 0 <= i < |ms| && ms[i].msg.ResponseHeaders? && f in ms[i].msg.fields
                   && f.key == "status" && f.value != "200"
  }

  lemma TurnFlags(env: Env, s: Stream, m: Req)
    ensures var t := Step(env, s, m).st.ctx;
            && t.streaming == (s.ctx.streaming || (m.msg.ResponseHeaders? && AnyEventStream(m.msg.fields)))
            && t.errStatus == (s.ctx.errStatus || (m.msg.ResponseHeaders? && AnyBadStatus(m.msg.fields)))
            && t.sawHeaders == (s.ctx.sawHeaders || m.msg.RequestHeaders?)
  {
    var s1 := s.(ctx := s.ctx.(metadata := m.metadata));
    TakenFlags(env, s1, m.msg);
    hide Absorb, EndIn, AnyEventStream, AnyBadStatus;
  }

  lemma TakenFlags(env: Env, s: Stream, m: Msg)
    ensures var t := Absorb(env, s, m).st.ctx;
            && t.streaming == (s.ctx.streaming || (m.ResponseHeaders? && AnyEventStream(m.fields)))
            && t.errStatus == (s.ctx.errStatus || (m.ResponseHeaders? && AnyBadStatus(m.fields)))
            && t.sawHeaders == (s.ctx.sawHeaders || m.RequestHeaders?)
  {
    hide AnyEventStream, AnyBadStatus;
    match m
    case RequestBody(chunk, eos) =>
      hide HandleWholeRequest;
      RequestFlags(env, s, s.ctx.body + chunk);
    case ResponseBody(chunk, eos) =>
      hide HandleWholeResponse, ResponseReplies;
      ResponseFlags(env, s, s.ctx.body + chunk);
    case _ =>
  }

  lemma RequestFlags(env: Env, s: Stream, whole: Bytes)
    ensures var t := HandleWholeRequest(env, s, whole).st.ctx;
            t.streaming == s.ctx.streaming && t.errStatus == s.ctx.errStatus && t.sawHeaders == s.ctx.sawHeaders
  {
    hide RequestReplies;
    WholeRequestCtx(env, s, whole);
  }

  lemma ResponseFlags(env: Env, s: Stream, whole: Bytes)
    ensures var t := HandleWholeResponse(env, s, whole).ctx;
            t.streaming == s.ctx.streaming && t.errStatus == s.ctx.errStatus && t.sawHeaders == s.ctx.sawHeaders
  {
    hide ResponseReplies;
    match env.decode(whole, s.ctx.respDoc)
    case None =>
    case Some(d) =>
  }

  lemma SeenFirst(ms: seq<Req>)
    requires ms != []
    ensures EventStreamSeen(ms) <==>
              (ms[0].msg.ResponseHeaders? && AnyEventStream(ms[0].msg.fields)) || EventStreamSeen(ms[1..])
    ensures ErrorSeen(ms) <==> (ms[0].msg.ResponseHeaders? && AnyBadStatus(ms[0].msg.fields)) || ErrorSeen(ms[1..])
  {
    EventStreamFirst(ms);
    if ErrorSeen(ms) {
      var i, f :| 0 <= i < |ms| && ms[i].msg.ResponseHeaders? && f in ms[i].msg.fields
                  && f.key == "status" && f.value != "200";
      if i == 0 { assert BadStatus(f); } else { assert ms[1..][i - 1] == ms[i]; }
    }
    if ErrorSeen(ms[1..]) {
      var i, f :| 0 <= i < |ms[1..]| && ms[1..][i].msg.ResponseHeaders? && f in ms[1..][i].msg.fields
                  && f.key == "status" && f.value != "200";
      assert ms[i + 1] == ms[1..][i];
    }
  }

  lemma EventStreamFirst(ms: seq<Req>)
    requires ms != []
    ensures EventStreamSeen(ms) <==>
              (ms[0].msg.ResponseHeaders? && AnyEventStream(ms[0].msg.fields)) || EventStreamSeen(ms[1..])
  {
    if EventStreamSeen(ms) {
      var i, f, a, b :| 0 <= i < |ms| && ms[i].msg.ResponseHeaders? && f in ms[i].msg.fields
                        && f == Field("content-type", a + "text/event-stream" + b);
      ContainsIff(f.value, "text/event-stream");
      if i == 0 { assert EventStream(f); } else { assert ms[1..][i - 1] == ms[i]; }
    }
    if EventStreamSeen(ms[1..]) {
      var i, f, a, b :| 0 <= i < |ms[1..]| && ms[1..][i].msg.ResponseHeaders? && f in ms[1..][i].msg.fields
                        && f == Field("content-type", a + "text/event-stream" + b);
      assert ms[i + 1] == ms[1..][i];
    }
    if ms[0].msg.ResponseHeaders? && AnyEventStream(ms[0].msg.fields) {
      var f :| f in ms[0].msg.fields && EventStream(f);
      ContainsIff(f.value, "text/event-stream");
      var a, b :| f.value == a + "text/event-stream" + b;
      assert f == Field("content-type", a + "text/event-stream" + b);
    }
  }

  lemma {:induction false} FlagsRun(env: Env, s: Stream, ms: seq<Req>)
    requires Run(env, s, ms).exit.None?
    ensures Run(env, s, ms).st.ctx.streaming == (s.ctx.streaming || EventStreamSeen(ms))
    ensures Run(env, s, ms).st.ctx.errStatus == (s.ctx.errStatus || ErrorSeen(ms))
    ensures Run(env, s, ms).st.ctx.sawHeaders <==> s.ctx.sawHeaders || HeadersSeen(ms)
    decreases |ms|
  {
    hide Step, EventStreamSeen, ErrorSeen;
    if ms == [] {
      assert !EventStreamSeen([]) && !ErrorSeen([]) by { NothingSeen(); }
    } else {
      SeenFirst(ms);
      assert HeadersSeen(ms) <==> ms[0].msg.RequestHeaders? || HeadersSeen(ms[1..]) by { HeadersSeenFirst(ms); }
      TurnFlags(env, s, ms[0]);
      FlagsRun(env, Step(env, s, ms[0]).st, ms[1..]);
    }
  }

  lemma NothingSeen()
    ensures !EventStreamSeen([]) && !ErrorSeen([])
  {
  }

  predicate HeadersSeen(ms: seq<Req>) { exists i :: 0 <= i < |ms| && ms[i].msg.RequestHeaders? }

  lemma HeadersSeenFirst(ms: seq<Req>)
    requires ms != []
    ensures HeadersSeen(ms) <==> ms[0].msg.RequestHeaders? || HeadersSeen(ms[1..])
  {
    if HeadersSeen(ms) {
      var i :| 0 <= i < |ms| && ms[i].msg.RequestHeaders?;
      if i > 0 { assert ms[1..][i - 1] == ms[i]; }
    }
    if HeadersSeen(ms[1..]) {
      var i :| 0 <= i < |ms[1..]| && ms[1..][i].msg.RequestHeaders?;
      assert ms[i + 1] == ms[1..][i];
    }
  }

  /**
    A live stream is in streaming mode, is marked as failed, and has seen request headers, for exactly these
    messages.
  */
  lemma {:induction false} FlagsIff(env: Env, ms: seq<Req>)
    requires Run(env, FRESH, ms).exit.None?
    ensures Run(env, FRESH, ms).st.ctx.streaming <==> EventStreamSeen(ms)
    ensures Run(env, FRESH, ms).st.ctx.errStatus <==> ErrorSeen(ms)
    ensures Run(env, FRESH, ms).st.ctx.sawHeaders <==> HeadersSeen(ms)
  {
    hide Run;
    FlagsRun(env, FRESH, ms);
  }

  /** Trailers change nothing but the metadata at hand, and are not answered. */
  lemma TrailersIgnored(env: Env, s: Stream, m: Req)
    requires Due(s) == [] && (m.msg.RequestTrailers? || m.msg.ResponseTrailers?)
    ensures Step(env, s, m) == Outcome(s.(ctx := s.ctx.(metadata := m.metadata)), None)
  {
    var t := s.(ctx := s.ctx.(metadata := m.metadata));
    assert !HeaderDue(t) && !RequestBodyDue(t) && !ResponseBodyDue(t) by {
      assert !HeaderDue(s) && !RequestBodyDue(s) && !ResponseBodyDue(s);
    }
    IdlePass(env, t);
  }
}
