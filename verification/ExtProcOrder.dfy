/**
  What Envoy may see of one stream, over every run: the order of the replies, the single request
  body batch, and the phase as a function of what has been sent. Runs may be cut off anywhere, by a
  failing send included.
*/
module ExtProcOrder {
  import opened Basics
  import opened ExtProc

  // ---------- The order of replies ----------

  /**
    May b come right after a? `again` tells whether Envoy announced a second response on the stream.
    In FULL_DUPLEX_STREAMING each side is answered header first, then body.
  */
  predicate Next(a: Reply, b: Reply, again: bool)
  {
    match b
    case RequestHeaderReply(_, _, _) => false
    case RequestBodyReply(_, _) => a.RequestHeaderReply? || (a.RequestBodyReply? && !a.eos)
    case ResponseHeaderReply(_) => RequestSide(a) || (again && ResponseSide(a))
    case ResponseBodyReply(_, _) => a.ResponseHeaderReply? || (a.ResponseBodyReply? && !a.eos)
    case ImmediateReply(_) => !a.ImmediateReply?
  }

  predicate RequestSide(r: Reply) { r.RequestHeaderReply? || r.RequestBodyReply? }
  predicate ResponseSide(r: Reply) { r.ResponseHeaderReply? || r.ResponseBodyReply? }

  predicate InOrder(t: seq<Reply>, again: bool)
  {
    && (t != [] ==> !t[0].ResponseBodyReply?)
    && forall j :: 1 <= j < |t| ==> Next(t[j - 1], t[j], again)
  }

  lemma InOrderAppend(t: seq<Reply>, q: seq<Reply>, again: bool)
    requires InOrder(t, again)
    requires forall j :: 1 <= j < |q| ==> Next(q[j - 1], q[j], again)
    requires q != [] ==> if t == [] then !q[0].ResponseBodyReply? else Next(t[|t| - 1], q[0], again)
    ensures InOrder(t + q, again)
  {
    var u := t + q;
    forall j | 1 <= j < |u| ensures Next(u[j - 1], u[j], again) {
      if j < |t| {
        assert u[j - 1] == t[j - 1] && u[j] == t[j];
      } else if j == |t| {
        assert u[j - 1] == t[|t| - 1] && u[j] == q[0];
      } else {
        assert u[j - 1] == q[j - 1 - |t|] && u[j] == q[j - |t|];
      }
    }
  }

  lemma InOrderWeaken(t: seq<Reply>, again: bool)
    requires InOrder(t, false)
    ensures InOrder(t, again)
  {
    forall j | 1 <= j < |t| ensures Next(t[j - 1], t[j], again) {
      assert Next(t[j - 1], t[j], false);
    }
  }

  // ---------- The phase as a function of the trace ----------

  /** The phase a stream is in, read off the last reply it sent. */
  function PhaseOf(t: seq<Reply>): Phase
  {
    if t == [] then RequestReceived
    else match t[|t| - 1]
         case RequestHeaderReply(_, _, _) => HeaderRequestResponseComplete
         case RequestBodyReply(_, _) => BodyRequestResponsesComplete
         case ResponseHeaderReply(_) => HeaderResponseResponseComplete
         case ResponseBodyReply(_, eos) => if eos then BodyResponseResponsesComplete else HeaderResponseResponseComplete
         case ImmediateReply(_) => TrailerResponseResponsesComplete
  }

  // ---------- The request body batch ----------

  function RequestBodies(t: seq<Reply>): seq<Reply>
  {
    if t == [] then []
    else (if t[0].RequestBodyReply? then [t[0]] else []) + RequestBodies(t[1..])
  }

  lemma {:induction false} RequestBodiesAppend(t: seq<Reply>, u: seq<Reply>)
    ensures RequestBodies(t + u) == RequestBodies(t) + RequestBodies(u)
    decreases |t|
  {
    if t == [] {
      assert t + u == u;
    } else {
      assert (t + u)[0] == t[0] && (t + u)[1..] == t[1..] + u;
      RequestBodiesAppend(t[1..], u);
      ConcatAssociative(if t[0].RequestBodyReply? then [t[0]] else [], RequestBodies(t[1..]), RequestBodies(u));
    }
  }

  lemma RequestBodiesAll(t: seq<Reply>)
    requires forall i :: 0 <= i < |t| ==> t[i].RequestBodyReply?
    ensures RequestBodies(t) == t
  {
    if t == [] {
    } else {
      RequestBodiesAll(t[1..]);
    }
  }

  lemma RequestBodiesNone(t: seq<Reply>)
    requires forall i :: 0 <= i < |t| ==> !t[i].RequestBodyReply?
    ensures RequestBodies(t) == []
  {
  }

  /** q is the full list of body replies for one marshalled document. */
  predicate BatchFor(env: Env, doc: Json, q: seq<Reply>)
  {
    env.encode(doc).Some? && q == RequestReplies(env.split(env.encode(doc).value, true))
  }

  ghost predicate IsBatch(env: Env, q: seq<Reply>) { exists doc :: BatchFor(env, doc, q) }

  ghost predicate PrefixOfBatch(env: Env, q: seq<Reply>)
  {
    q == [] || exists doc, b :: BatchFor(env, doc, b) && q <= b
  }

  // ---------- The invariant ----------

  /** The pending replies are of their own kind, with the end mark on the last body reply only. */
  ghost predicate SlotsTyped(env: Env, s: Stream)
  {
    && HeadersTyped(s)
    && (s.reqBody != [] ==> IsBatch(env, s.reqBody))
    && (forall i :: 0 <= i < |s.reqBody| ==>
          s.reqBody[i].RequestBodyReply? && (s.reqBody[i].eos ==> i == |s.reqBody| - 1))
    && (forall i :: 0 <= i < |s.respBody| ==>
          s.respBody[i].ResponseBodyReply? && (s.respBody[i].eos ==> i == |s.respBody| - 1))
  }

  /** The trace so far: n is the number of ResponseHeaders messages, `running` the flag of the stream. */
  ghost predicate TraceInv(env: Env, t: seq<Reply>, running: bool, n: nat)
  {
    && InOrder(t, n >= 2)
    && (t != [] ==> !t[|t| - 1].ImmediateReply?)
    && (if running then IsBatch(env, RequestBodies(t)) else RequestBodies(t) == [])
  }

  /** The phase is read off the trace, except between a ResponseHeaders message and its reply. */
  predicate PhaseInv(phase: Phase, answered: bool, t: seq<Reply>, running: bool, n: nat)
  {
    && (if phase.ResponseReceived?
        then n >= 1 && answered && (n == 1 ==> PhaseOf(t).Rank() <= 2)
        else phase == PhaseOf(t) && (n >= 1 <==> phase.Rank() >= 4))
    && (running ==> phase.Rank() >= 2)
  }

  /** What one sending pass starts from. */
  ghost predicate BeforePass(env: Env, s: Stream, n: nat)
  {
    && SlotsTyped(env, s)
    && TraceInv(env, s.sent, s.running, n)
    && PhaseInv(s.phase, s.respHeader.Some?, s.sent, s.running, n)
  }

  /** A live stream between two messages. */
  ghost predicate Live(env: Env, s: Stream, n: nat)
  {
    BeforePass(env, s, n) && Due(s) == [] && s.phase == PhaseOf(s.sent)
  }

  /** What holds of the trace of any stream, however it ended. */
  ghost predicate Trace(env: Env, s: Stream, n: nat)
  {
    InOrder(s.sent, n >= 2) && PrefixOfBatch(env, RequestBodies(s.sent))
  }

  // ---------- The invariant over one message ----------

  lemma SplitTyped(env: Env, b: Bytes, eos: bool)
    requires env.Contract()
    ensures GoodSplit(env.split(b, eos), b, eos)
    ensures var cs := env.split(b, eos);
            && |RequestReplies(cs)| == |ResponseReplies(cs)| == |cs|
            && (forall i :: 0 <= i < |cs| ==> RequestReplies(cs)[i] == RequestBodyReply(cs[i].bytes, cs[i].eos))
            && (forall i :: 0 <= i < |cs| ==> ResponseReplies(cs)[i] == ResponseBodyReply(cs[i].bytes, cs[i].eos))
  {
    RepliesAt(env.split(b, eos));
  }

  lemma RequestSlots(env: Env, s: Stream, whole: Bytes)
    requires env.Contract() && SlotsTyped(env, s)
    ensures SlotsTyped(env, HandleWholeRequest(env, s, whole).st)
  {
    var t := HandleWholeRequest(env, s, whole).st;
    if t.reqBody != s.reqBody {
      var doc := t.ctx.doc;
      assert BatchFor(env, doc, t.reqBody);
      SplitTyped(env, env.encode(doc).value, true);
    }
  }

  lemma ResponseSlots(env: Env, s: Stream, chunk: Bytes, eos: bool)
    requires env.Contract() && SlotsTyped(env, s)
    ensures SlotsTyped(env, AbsorbResponseBody(env, s, chunk, eos))
  {
    SplitTyped(env, chunk, eos);
    SplitTyped(env, s.ctx.body + chunk, true);
    var d := env.decode(s.ctx.body + chunk, s.ctx.respDoc);
    if d.Some? && env.onResponse(|s.calls|, d.value).payload.Some? {
      SplitTyped(env, env.onResponse(|s.calls|, d.value).payload.value, true);
    }
  }

  lemma AbsorbSlots(env: Env, s: Stream, m: Msg)
    requires env.Contract() && SlotsTyped(env, s)
    ensures SlotsTyped(env, Absorb(env, s, m).st)
  {
    match m
    case RequestBody(chunk, eos) =>
      hide HandleWholeRequest;
      RequestSlots(env, s, s.ctx.body + chunk);
    case ResponseBody(chunk, eos) =>
      hide AbsorbResponseBody;
      ResponseSlots(env, s, chunk, eos);
    case _ =>
  }

  function Count(m: Msg): nat { if m.ResponseHeaders? then 1 else 0 }

  /** A message turns a live stream into one that is ready for its sending pass. */
  lemma AbsorbKeeps(env: Env, s: Stream, m: Req, n: nat)
    requires env.Contract() && Live(env, s, n)
    ensures var a := Absorb(env, s.(ctx := s.ctx.(metadata := m.metadata)), m.msg);
            BeforePass(env, a.st, n + Count(m.msg))
  {
    var s1 := s.(ctx := s.ctx.(metadata := m.metadata));
    assert SlotsTyped(env, s1);
    AbsorbSlots(env, s1, m.msg);
    AbsorbFrame(env, s1, m.msg);
    hide Absorb, SlotsTyped, IsBatch, RequestBodies, Due;
    if n <= 1 { InOrderWeaken(s.sent, n + Count(m.msg) >= 2); }
  }

  // ---------- The invariant over one pass, segment by segment ----------

  lemma TraceHeader(env: Env, t: seq<Reply>, running: bool, n: nat, h: Reply)
    requires TraceInv(env, t, running, n)
    requires if t == [] then h.RequestHeaderReply? || h.ResponseHeaderReply?
             else Next(t[|t| - 1], h, n >= 2) && h.ResponseHeaderReply?
    ensures TraceInv(env, t + [h], running, n)
  {
    InOrderAppend(t, [h], n >= 2);
    RequestBodiesAppend(t, [h]);
    RequestBodiesNone([h]);
    assert RequestBodies(t) + [] == RequestBodies(t);
  }

  lemma HeaderKeeps(env: Env, s: Stream, n: nat)
    requires BeforePass(env, s, n) && HeaderDue(s)
    ensures BeforePass(env, HeaderSent(s), n)
  {
    var h := DueHeader(s);
    assert s.sent != [] ==> Next(s.sent[|s.sent| - 1], h, n >= 2);
    TraceHeader(env, s.sent, s.running, n, h);
    assert (s.sent + [h])[|s.sent|] == h;
    hide TraceInv;
  }

  lemma TraceRequestBodies(env: Env, t: seq<Reply>, n: nat, q: seq<Reply>)
    requires TraceInv(env, t, false, n)
    requires t == [] || t[|t| - 1].RequestHeaderReply?
    requires forall i :: 0 <= i < |q| ==> q[i].RequestBodyReply? && (q[i].eos ==> i == |q| - 1)
    ensures InOrder(t + q, n >= 2) && RequestBodies(t + q) == q
    ensures q != [] ==> !(t + q)[|t + q| - 1].ImmediateReply? && PhaseOf(t + q) == BodyRequestResponsesComplete
    ensures q != [] && IsBatch(env, q) ==> TraceInv(env, t + q, true, n)
  {
    hide InOrder, RequestBodies, IsBatch, PrefixOfBatch;
    InOrderAppend(t, q, n >= 2);
    RequestBodiesAppend(t, q);
    RequestBodiesAll(q);
    if q != [] { assert (t + q)[|t + q| - 1] == q[|q| - 1]; }
  }

  lemma RequestBodyKeeps(env: Env, s: Stream, n: nat, k: nat)
    requires BeforePass(env, s, n) && !HeaderDue(s) && RequestBodyDue(s) && k <= |s.reqBody|
    ensures InOrder(s.sent + s.reqBody[..k], n >= 2)
    ensures PrefixOfBatch(env, RequestBodies(s.sent + s.reqBody[..k]))
    ensures BeforePass(env, RequestBodySent(s), n)
  {
    hide TraceInv, IsBatch, InOrder, RequestBodies, Due, DueBody;
    assert !s.running && (s.sent == [] || s.sent[|s.sent| - 1].RequestHeaderReply?);
    TraceRequestBodies(env, s.sent, n, s.reqBody[..k]);
    TraceRequestBodies(env, s.sent, n, s.reqBody);
    PartOfBatch(env, s.reqBody, k);
    hide PhaseOf;
  }

  lemma TraceResponseBodies(env: Env, t: seq<Reply>, running: bool, n: nat, q: seq<Reply>)
    requires TraceInv(env, t, running, n)
    requires t != [] && PhaseOf(t) == HeaderResponseResponseComplete
    requires forall i :: 0 <= i < |q| ==> q[i].ResponseBodyReply? && (q[i].eos ==> i == |q| - 1)
    ensures InOrder(t + q, n >= 2) && RequestBodies(t + q) == RequestBodies(t)
    ensures TraceInv(env, t + q, running, n)
    ensures q != [] ==>
              PhaseOf(t + q) == if EndIn(q) then BodyResponseResponsesComplete else HeaderResponseResponseComplete
  {
    InOrderAppend(t, q, n >= 2);
    RequestBodiesAppend(t, q);
    RequestBodiesNone(q);
    assert RequestBodies(t) + [] == RequestBodies(t);
    if q != [] {
      assert (t + q)[|t + q| - 1] == q[|q| - 1];
      assert q[|q| - 1].eos ==> EndsResponse(q[|q| - 1]);
    }
  }

  lemma ResponseBodyKeeps(env: Env, s: Stream, n: nat, k: nat)
    requires BeforePass(env, s, n) && !HeaderDue(s) && ResponseBodyDue(s) && k <= |s.respBody|
    ensures InOrder(s.sent + s.respBody[..k], n >= 2)
    ensures PrefixOfBatch(env, RequestBodies(s.sent + s.respBody[..k]))
    ensures BeforePass(env, ResponseBodySent(s), n)
  {
    hide TraceInv, IsBatch, InOrder, RequestBodies, EndIn, Due, DueBody;
    BatchSent(env, s, n);
    TraceResponseBodies(env, s.sent, s.running, n, s.respBody[..k]);
    TraceResponseBodies(env, s.sent, s.running, n, s.respBody);
    hide PhaseOf;
  }

  lemma BatchSent(env: Env, s: Stream, n: nat)
    requires BeforePass(env, s, n)
    ensures PrefixOfBatch(env, RequestBodies(s.sent))
  {
    if s.running { PartOfBatch(env, RequestBodies(s.sent), |RequestBodies(s.sent)|); }
    assert RequestBodies(s.sent)[..|RequestBodies(s.sent)|] == RequestBodies(s.sent);
  }

  lemma PartOfBatch(env: Env, q: seq<Reply>, k: nat)
    requires IsBatch(env, q) && k <= |q|
    ensures PrefixOfBatch(env, q[..k])
  {
    var doc :| BatchFor(env, doc, q);
    assert BatchFor(env, doc, q) && q[..k] <= q;
  }

  /** The part of a pass after the header, if any. */
  lemma BodyPassKeeps(env: Env, s: Stream, n: nat)
    requires BeforePass(env, s, n) && !HeaderDue(s)
    ensures PassOk(env, s) ==> Live(env, Pass(env, s), n)
    ensures !PassOk(env, s) ==> Trace(env, Pass(env, s), n)
  {
    hide BeforePass, Live, InOrder, PrefixOfBatch, RequestBodies, EndIn, Pass, PassOk;
    if RequestBodyDue(s) {
      var k := Delivered(env, s.attempts, |s.reqBody|);
      RequestBodyPass(env, s, k);
      RequestBodyKeeps(env, s, n, k);
      Settled(env, RequestBodySent(s), n);
    } else if ResponseBodyDue(s) {
      var k := Delivered(env, s.attempts, |s.respBody|);
      ResponseBodyPass(env, s, k);
      ResponseBodyKeeps(env, s, n, k);
      Settled(env, ResponseBodySent(s), n);
    } else {
      IdlePass(env, s);
      Settled(env, s, n);
    }
  }

  lemma Settled(env: Env, s: Stream, n: nat)
    requires BeforePass(env, s, n) && Due(s) == []
    ensures Live(env, s, n)
  {
    hide SlotsTyped, TraceInv, PhaseOf;
  }

  lemma TraceSoFar(env: Env, s: Stream, n: nat)
    requires BeforePass(env, s, n)
    ensures Trace(env, s, n)
  {
    BatchSent(env, s, n);
  }

  lemma PassKeeps(env: Env, s: Stream, n: nat)
    requires BeforePass(env, s, n)
    ensures PassOk(env, s) ==> Live(env, Pass(env, s), n)
    ensures !PassOk(env, s) ==> Trace(env, Pass(env, s), n)
  {
    if HeaderDue(s) {
      assert HeadersTyped(s);
      hide BeforePass, Live, InOrder, PrefixOfBatch, RequestBodies, Pass, PassOk;
      PassHeaderFirst(env, s);
      TraceSoFar(env, s, n);
      HeaderKeeps(env, s, n);
      BodyPassKeeps(env, HeaderSent(s), n);
    } else {
      hide BeforePass, Live, Trace, Pass, PassOk;
      BodyPassKeeps(env, s, n);
    }
  }

  // ---------- The invariant over a run ----------

  /** One message keeps the invariant; if it ends the stream the trace is still in order. */
  lemma StepKeeps(env: Env, s: Stream, m: Req, n: nat)
    requires env.Contract() && Live(env, s, n)
    ensures Step(env, s, m).exit.None? ==> Live(env, Step(env, s, m).st, n + Count(m.msg))
    ensures Step(env, s, m).exit.Some? ==> Trace(env, Step(env, s, m).st, n + Count(m.msg))
  {
    hide BeforePass, Live, Trace, Pass, PassOk, Absorb;
    AbsorbKeeps(env, s, m, n);
    var a := Absorb(env, s.(ctx := s.ctx.(metadata := m.metadata)), m.msg);
    if a.err.None? {
      PassKeeps(env, a.st, n + Count(m.msg));
    } else {
      TraceSoFar(env, a.st, n + Count(m.msg));
      ErrorReplyLast(env, a.st, n + Count(m.msg), a.err.value);
    }
  }

  lemma ErrorReplyLast(env: Env, s: Stream, n: nat, e: ErrCode)
    requires BeforePass(env, s, n) && Trace(env, s, n)
    ensures Trace(env, ReplyError(env, s, e).st, n)
  {
    hide BeforePass, InOrder, PrefixOfBatch, RequestBodies;
    NotImmediateYet(env, s, n);
    if StatusOf(e).Some? { ImmediateLast(s.sent, StatusOf(e).value, n >= 2); }
  }

  lemma NotImmediateYet(env: Env, s: Stream, n: nat)
    requires BeforePass(env, s, n)
    ensures s.sent != [] ==> !s.sent[|s.sent| - 1].ImmediateReply?
  {
    hide SlotsTyped, PhaseInv, InOrder, IsBatch, RequestBodies;
  }

  /** An immediate reply may follow anything but another one, and is no request body. */
  lemma ImmediateLast(t: seq<Reply>, status: nat, again: bool)
    requires InOrder(t, again) && (t != [] ==> !t[|t| - 1].ImmediateReply?)
    ensures InOrder(t + [ImmediateReply(status)], again)
    ensures RequestBodies(t + [ImmediateReply(status)]) == RequestBodies(t)
  {
    hide InOrder, RequestBodies;
    var r := ImmediateReply(status);
    InOrderAppend(t, [r], again);
    RequestBodiesAppend(t, [r]);
    RequestBodiesNone([r]);
  }

  /** The number of responses Envoy announces in a run. */
  function Announced(ms: seq<Req>): nat
  {
    if ms == [] then 0 else Count(ms[0].msg) + Announced(ms[1..])
  }

  lemma {:induction false} RunKeeps(env: Env, s: Stream, ms: seq<Req>, n: nat)
    requires env.Contract() && Live(env, s, n)
    ensures Run(env, s, ms).exit.None? ==> Live(env, Run(env, s, ms).st, n + Announced(ms))
    ensures Trace(env, Run(env, s, ms).st, n + Announced(ms))
    decreases |ms|
  {
    hide BeforePass, Live, Trace, Step;
    if ms == [] {
      LiveTrace(env, s, n);
    } else {
      var o := Step(env, s, ms[0]);
      StepKeeps(env, s, ms[0], n);
      if o.exit.None? {
        RunKeeps(env, o.st, ms[1..], n + Count(ms[0].msg));
      } else {
        TraceMore(env, o.st, n + Count(ms[0].msg), n + Announced(ms));
      }
    }
  }

  lemma LiveTrace(env: Env, s: Stream, n: nat)
    requires Live(env, s, n)
    ensures Trace(env, s, n)
  {
    TraceSoFar(env, s, n);
  }

  lemma TraceMore(env: Env, s: Stream, n: nat, n': nat)
    requires Trace(env, s, n) && n <= n'
    ensures Trace(env, s, n')
  {
    if n < 2 { InOrderWeaken(s.sent, n' >= 2); }
  }

  lemma FreshLive(env: Env)
    ensures Live(env, FRESH, 0)
  {
  }

  lemma LiveMeans(env: Env, s: Stream, n: nat, ms: seq<Req>)
    requires env.Contract() && Live(env, s, n) && Run(env, s, ms).exit.None?
    ensures var t := Run(env, s, ms).st;
            t.phase == PhaseOf(t.sent) && Due(t) == [] && (t.phase.Rank() >= 4 <==> n + Announced(ms) >= 1)
  {
    hide Live, Run;
    RunKeeps(env, s, ms, n);
    LivePhase(env, Run(env, s, ms).st, n + Announced(ms));
  }

  lemma LivePhase(env: Env, s: Stream, n: nat)
    requires Live(env, s, n)
    ensures s.phase == PhaseOf(s.sent) && Due(s) == [] && (s.phase.Rank() >= 4 <==> n >= 1)
  {
    hide SlotsTyped, TraceInv, Due;
  }

  // ---------- Main results ----------

  /**
    Every run, whatever the director answers and whichever send fails: the replies are in protocol
    order, and the request bodies sent are a prefix of the replies for one marshalled document.
  */
  lemma RepliesInOrder(env: Env, ms: seq<Req>, end: Exit)
    requires env.Contract()
    ensures InOrder(Process(env, ms, end).st.sent, Announced(ms) >= 2)
    ensures PrefixOfBatch(env, RequestBodies(Process(env, ms, end).st.sent))
  {
    hide Run, Live, InOrder, PrefixOfBatch, RequestBodies;
    FreshLive(env);
    RunKeeps(env, FRESH, ms, 0);
  }

  /** On every live stream the phase is a function of what has been sent, and nothing sendable waits. */
  lemma PhaseIsTrace(env: Env, ms: seq<Req>)
    requires env.Contract() && Run(env, FRESH, ms).exit.None?
    ensures Run(env, FRESH, ms).st.phase == PhaseOf(Run(env, FRESH, ms).st.sent)
    ensures Run(env, FRESH, ms).st.phase.Rank() >= 4 <==> Announced(ms) >= 1
    ensures Due(Run(env, FRESH, ms).st) == []
  {
    hide Run, SlotsTyped, TraceInv, PhaseOf, Due;
    FreshLive(env);
    LiveMeans(env, FRESH, 0, ms);
  }
}
