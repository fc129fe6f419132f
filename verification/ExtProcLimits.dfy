/**
  The limits of the stream's guarantees are reached: for each of them a run from a new stream, with
  collaborators that answer and sends that succeed, on which the guarantee fails.
*/
module ExtProcLimits {
  import opened Basics
  import opened ExtProc
  import opened ExtProcOrder
  import opened ExtProcPhase
  import opened ExtProcHook
  import opened ExtProcGauge
  import opened ExtProcChunking
  import opened ExtProcBodies

  /** Collaborators that succeed throughout; the second request is routed to another model than the first. */
  function Demo(decodes: bool, encodes: bool): Env
  {
    Env((fields, eos, headers) => HeadersResult(headers, None, None),
        (bytes, doc) => if decodes then Some(map[]) else None,
        doc => if encodes then Some([]) else None,
        (n, view) => RouteResult(Some("pod"), "", if n == 0 then "x" else "y", map[], map[], None),
        (n, doc) => ResponseResult(false, None),
        (bytes, eos) => [Chunk(bytes, eos)],
        n => true)
  }

  function Body(chunk: Bytes, eos: bool): Req { Req(map[], RequestBody(chunk, eos)) }
  function Announce(fields: seq<Field>): Req { Req(map[], ResponseHeaders(fields)) }
  function Answer(chunk: Bytes, eos: bool): Req { Req(map[], ResponseBody(chunk, eos)) }

  const STREAMING := [Field("content-type", "text/event-stream")]

  lemma DemoContract(decodes: bool, encodes: bool)
    ensures Demo(decodes, encodes).Contract() && SendsSucceed(Demo(decodes, encodes))
  {
    var env := Demo(decodes, encodes);
    forall b: Bytes, eos: bool ensures GoodSplit(env.split(b, eos), b, eos) {
      assert [Chunk(b, eos)][1..] == [] && b + [] == b;
    }
  }

  lemma StreamingFields()
    ensures AnyEventStream(STREAMING) && !AnyEventStream([])
  {
    var v := "text/event-stream";
    assert v[0..0 + |v|] == v;
    assert MatchesAt(v, v, 0);
    assert EventStream(STREAMING[0]) && STREAMING[0] in STREAMING;
  }

  predicate ResponseSideOnly(ms: seq<Req>)
  {
    forall i :: 0 <= i < |ms| ==> ms[i].msg.ResponseHeaders? || ms[i].msg.ResponseBody?
  }

  /** With sends succeeding, response messages never end a stream, and keep the scheduled pod. */
  lemma {:induction false} ResponsesGoOn(env: Env, s: Stream, ms: seq<Req>)
    requires SendsSucceed(env) && ResponseSideOnly(ms)
    ensures Run(env, s, ms).exit.None? && Run(env, s, ms).st.ctx.target == s.ctx.target
    decreases |ms|
  {
    hide Step;
    if ms == [] {
    } else {
      ResponseTurn(env, s, ms[0]);
      ResponsesGoOn(env, Step(env, s, ms[0]).st, ms[1..]);
    }
  }

  lemma ResponseTurn(env: Env, s: Stream, m: Req)
    requires SendsSucceed(env) && (m.msg.ResponseHeaders? || m.msg.ResponseBody?)
    ensures Step(env, s, m).exit.None? && Step(env, s, m).st.ctx.target == s.ctx.target
  {
    var s1 := s.(ctx := s.ctx.(metadata := m.metadata));
    var a := Absorb(env, s1, m.msg);
    TargetKept(env, s1, m.msg);
    hide Absorb, Pass, PassOk;
    PassSendsAll(env, a.st);
    PassKeepsCtx(env, a.st);
  }

  lemma TargetKept(env: Env, s: Stream, m: Msg)
    requires m.ResponseHeaders? || m.ResponseBody?
    ensures Absorb(env, s, m).err.None? && Absorb(env, s, m).st.ctx.target == s.ctx.target
  {
    hide AnyBadStatus, AnyEventStream, HandleWholeResponse;
    if m.ResponseBody? { WholeResponseTarget(env, s, s.ctx.body + m.chunk); }
  }

  lemma WholeResponseTarget(env: Env, s: Stream, whole: Bytes)
    ensures HandleWholeResponse(env, s, whole).ctx.target == s.ctx.target
  {
    hide ResponseReplies;
    match env.decode(whole, s.ctx.respDoc)
    case None =>
    case Some(d) =>
  }

  /** The stream after one complete request body, routed to pod "pod" and model "x". */
  lemma FirstRequest() returns (s: Stream)
    ensures Step(Demo(true, true), FRESH, Body([], true)) == Outcome(s, None)
    ensures Live(Demo(true, true), s, 0) && GaugeInv(s, 1) && s.running
    ensures s.ctx.model == "x" && s.ctx.target == Some("pod") && |s.calls| == 1 && s.hooks == 0
    ensures s.respBody == [] && !s.ctx.streaming
  {
    hide Demo, Step, Live, Trace, GaugeInv;
    var env, m := Demo(true, true), Body([], true);
    DemoContract(true, true);
    FreshLive(env);
    RequestServed(env, m);
    RequestFields(env, m);
    NewGauge();
    StepKeeps(env, FRESH, m, 0);
    StepGauge(env, FRESH, m, 0);
    s := Step(env, FRESH, m).st;
  }

  lemma NewGauge()
    ensures GaugeInv(FRESH, 0)
  {
  }

  lemma RequestServed(env: Env, m: Req)
    requires env == Demo(true, true) && m == Body([], true)
    ensures Step(env, FRESH, m).exit.None? && Step(env, FRESH, m).st.running
  {
    DemoContract(true, true);
    assert Asking(FRESH, 0) && Due(FRESH) == [];
    assert env.decode(m.msg.chunk, map[]) == Some(map[]);
    hide Step, Asking, Due;
    RequestTurn(env, FRESH, m, map[], 0);
  }

  lemma RequestFields(env: Env, m: Req)
    requires env == Demo(true, true) && m == Body([], true)
    ensures var s := Step(env, FRESH, m).st;
            && s.ctx.model == "x" && s.ctx.target == Some("pod") && |s.calls| == 1 && s.hooks == 0
            && s.respBody == [] && !s.ctx.streaming
  {
    var s1 := FRESH.(ctx := FRESH.ctx.(metadata := m.metadata));
    var a := Absorb(env, s1, m.msg);
    assert s1.ctx.body + m.msg.chunk == [];
    assert a == HandleWholeRequest(env, s1, []);
    RequestRouted(env, s1);
    hide HandleWholeRequest, Absorb, Pass, PassOk;
    PassFrame(env, a.st);
    QuietBody(env, a.st);
  }

  lemma RequestRouted(env: Env, s: Stream)
    requires env == Demo(true, true) && s.calls == []
    ensures var a := HandleWholeRequest(env, s, []);
            && a.err.None? && a.st.ctx.model == "x" && a.st.ctx.target == Some("pod") && |a.st.calls| == 1
            && a.st.hooks == s.hooks && a.st.respBody == s.respBody && a.st.ctx.streaming == s.ctx.streaming
            && a.st.phase == s.phase
  {
    hide RequestReplies;
  }

  /** A pass does not fill the response slot. */
  lemma QuietBody(env: Env, s: Stream)
    requires s.respBody == []
    ensures Pass(env, s).respBody == []
  {
    hide EndIn;
  }

  // ---------- Order and phase ----------

  /** Two announced responses: the second header reply follows a response-side reply. */
  lemma SecondResponseBreaksOrder()
    ensures var env, ms := Demo(true, true), [Announce([]), Announce([])];
            && env.Contract() && Announced(ms) == 2 && Run(env, FRESH, ms).exit.None?
            && !InOrder(Run(env, FRESH, ms).st.sent, false)
  {
    hide Run, InOrder;
    var env, ms := Demo(true, true), [Announce([]), Announce([])];
    DemoContract(true, true);
    ResponsesGoOn(env, FRESH, ms);
    assert ms[1..] == [Announce([])] && ms[1..][1..] == [];
    assert Announced(ms[1..]) == 1;
    OneResponseIffAnnouncedOnce(env, ms);
  }

  /** The stream after a whole streamed response, announced by the second-last message. */
  lemma StreamedAnswer(env: Env, s: Stream, n: nat) returns (t: Stream)
    requires env == Demo(true, true) && Live(env, s, n) && s.respBody == []
    ensures Run(env, s, [Announce(STREAMING), Answer([], true)]) == Outcome(t, None)
    ensures Live(env, t, n + 1) && t.phase == BodyResponseResponsesComplete && t.respBody == []
  {
    var h, m := Announce(STREAMING), Answer([], true);
    DemoContract(true, true);
    StreamingFields();
    LiveSlots(env, s, n);
    hide Live, Trace, AnyEventStream, Step;
    ResponseTurn(env, s, h);
    HeadersTurn(env, s, h);
    StepKeeps(env, s, h, n);
    var r := Step(env, s, h).st;
    ResponseTurn(env, r, m);
    EndingTurn(env, r, m);
    StepKeeps(env, r, m, n + 1);
    t := Step(env, r, m).st;
    assert [h, m][1..] == [m];
    OneMessage(env, r, m);
  }

  lemma EndingTurn(env: Env, s: Stream, m: Req)
    requires env == Demo(true, true) && SendsSucceed(env) && Answering(s) && s.ctx.streaming && m == Answer([], true)
    ensures Step(env, s, m).st.phase == BodyResponseResponsesComplete && Step(env, s, m).st.respBody == []
  {
    var s1 := s.(ctx := s.ctx.(metadata := m.metadata));
    var a := Absorb(env, s1, m.msg);
    RepliesAt([Chunk([], true)]);
    var q := ResponseReplies([Chunk([], true)]);
    assert a.err.None? && a.st.respBody == q && a.st.phase == s.phase;
    assert EndsResponse(q[0]);
    AllDelivered(env, a.st.attempts, |q|);
    hide Absorb, Pass, PassOk, ResponseReplies;
    ResponseBodyPass(env, a.st, 1);
  }

  /** A response announced after the end of a response body takes the phase back. */
  lemma PhaseDrops()
    ensures var env, ms, h := Demo(true, true), [Announce(STREAMING), Answer([], true)], Announce([]);
            && env.Contract() && Run(env, FRESH, ms + [h]).exit.None?
            && Run(env, FRESH, ms + [h]).st.phase.Rank() < Run(env, FRESH, ms).st.phase.Rank()
  {
    var env, ms, h := Demo(true, true), [Announce(STREAMING), Answer([], true)], Announce([]);
    DemoContract(true, true);
    FreshLive(env);
    EndInNone();
    hide Live, Run, Step, EndIn;
    var t := StreamedAnswer(env, FRESH, 0);
    ResponseTurn(env, t, h);
    RunAppend(env, FRESH, ms, [h]);
    OneMessage(env, t, h);
    PhaseDropsIff(env, t, h, 1);
  }

  // ---------- The hook and the gauge ----------

  /** Two end-of-stream chunks of a streamed response run the completion hook of one request twice. */
  lemma HookRunsTwice(end: Exit)
    ensures var ms := [Body([], true), Announce(STREAMING), Answer([], true), Answer([], true)];
            Process(Demo(true, true), ms, end).st.ctx.target.Some? && Process(Demo(true, true), ms, end).st.hooks == 2
  {
    var env := Demo(true, true);
    var first, more := [Body([], true)], [Announce(STREAMING), Answer([], true), Answer([], true)];
    DemoContract(true, true);
    hide Run, Step, Live;
    var s := FirstRequest();
    OneMessage(env, FRESH, Body([], true));
    RunAppend(env, FRESH, first, more);
    ResponsesGoOn(env, s, more);
    assert first + more == [Body([], true), Announce(STREAMING), Answer([], true), Answer([], true)];
    HookCount(env, first + more, end);
    CompletionsAppend(env, FRESH, first, more);
    RunHook(env, FRESH, first);
    TwoEnds(env, s);
  }

  lemma TwoEnds(env: Env, s: Stream)
    requires SendsSucceed(env)
    ensures Completions(env, s, [Announce(STREAMING), Answer([], true), Answer([], true)]) == 2
  {
    var h, rest := Announce(STREAMING), [Answer([], true), Answer([], true)];
    assert [h, rest[0], rest[1]][1..] == rest && rest[1..] == [Answer([], true)] && rest[1..][1..] == [];
    StreamingFields();
    var s1 := s.(ctx := s.ctx.(metadata := h.metadata));
    assert Absorb(env, s1, h.msg).st.ctx.streaming;
    PassKeepsCtx(env, Absorb(env, s1, h.msg).st);
    ResponseTurn(env, s, h);
    assert Step(env, s, h).st.ctx.streaming;
    hide Step;
    var t := Step(env, s, h).st;
    ResponsesGoOn(env, t, rest);
    ConsumedAll(env, t, rest);
    StreamingCompletions(env, t, rest);
    assert EndChunks(rest[1..][1..]) == 0 && EndChunks(rest[1..]) == 1;
  }

  ghost predicate Unbalanced(gauge: seq<GaugeOp>) { exists x :: Level(gauge, x) != 0 }

  /** Two complete request bodies routed to different models: the closed stream leaves the gauge unbalanced. */
  lemma GaugeLeftUnbalanced(end: Exit)
    ensures var ms := [Body([], true), Body([], true)];
            Unbalanced(Process(Demo(true, true), ms, end).st.gauge)
  {
    var env, m := Demo(true, true), Body([], true);
    var ms := [m, m];
    DemoContract(true, true);
    hide Run, Step, Live, Teardown;
    var s := FirstRequest();
    OneMessage(env, FRESH, m);
    assert ms == [m] + [m];
    RunAppend(env, FRESH, [m], [m]);
    OneMessage(env, s, m);
    SecondBodyBalancedIff(env, s, m);
    assert "x"[0] != "y"[0];
    assert Unbalanced(Teardown(Step(env, s, m).st).gauge);
    assert Process(env, ms, end).st == Teardown(Step(env, s, m).st);
  }

  // ---------- Bodies ----------

  /** A request whose routed document cannot be marshalled: no reply at all, and the stream goes on. */
  lemma RequestStalls()
    ensures var o := Run(Demo(true, false), FRESH, [Body([], true)]);
            o.exit.None? && o.st.sent == [] && !o.st.running
  {
    var env, m := Demo(true, false), Body([], true);
    DemoContract(true, false);
    assert Asking(FRESH, 0) && Due(FRESH) == [];
    hide Run, Step;
    RequestTurn(env, FRESH, m, map[], 0);
    OneMessage(env, FRESH, m);
  }

  /** Request bytes without an end before a response that is not JSON: Envoy receives them as response bytes. */
  lemma RequestBytesLeak()
    ensures var env, ms := Demo(false, true), [Body([1], false), Announce([]), Answer([2], true)];
            && Run(env, FRESH, ms).exit.None? && Received(ms) == [2]
            && ResponseBytes(Run(env, FRESH, ms).st.sent) == [1, 2]
  {
    var env, ms := Demo(false, true), [Body([1], false), Announce([]), Answer([2], true)];
    LeakBytes(ms);
    assert Ended(ms) by { assert EndsBody(ms[2].msg); }
    hide Run, Received, Demo, Buffered, Passed;
    Leak(env, ms);
  }

  lemma LeakBytes(ms: seq<Req>)
    requires ms == [Body([1], false), Announce([]), Answer([2], true)]
    ensures Buffered(false, ms) && Received(ms) == [2] && Passed([], ms) == [1, 2]
  {
    var none: Bytes, one: Bytes, two: Bytes := [], [1], [2];
    var xs := ms[1..];
    var ys := xs[1..];
    assert xs == [ms[1], ms[2]] && ys == [ms[2]] && ys[1..] == [];
    assert none + one == one && one + two == [1, 2] && two + none == two && none + two == two;
    assert Passed(none, ms) == Passed(one, xs) == Passed(one, ys);
    assert Received(ys) == two;
    assert Received(xs) == none + two;
    assert Buffered(true, ys) && Buffered(false, xs);
  }

  /** Request bytes between two chunks of such a response: Envoy receives them in its middle. */
  lemma RequestBytesInside()
    ensures var env, ms := Demo(false, true), [Announce([]), Answer([1], false), Body([2], false), Answer([3], true)];
            && Run(env, FRESH, ms).exit.None? && Received(ms) == [1, 3]
            && ResponseBytes(Run(env, FRESH, ms).st.sent) == [1, 2, 3]
  {
    var env, ms := Demo(false, true), [Announce([]), Answer([1], false), Body([2], false), Answer([3], true)];
    InsideBytes(ms);
    assert Ended(ms) by { assert EndsBody(ms[3].msg); }
    hide Run, Received, Demo, Buffered, Passed;
    Leak(env, ms);
  }

  lemma InsideBytes(ms: seq<Req>)
    requires ms == [Announce([]), Answer([1], false), Body([2], false), Answer([3], true)]
    ensures Buffered(false, ms) && Received(ms) == [1, 3] && Passed([], ms) == [1, 2, 3]
  {
    var one: Bytes, three: Bytes, both: Bytes := [1], [3], [1, 2];
    var xs, ys, zs := ms[1..], ms[2..], ms[3..];
    assert xs[1..] == ys && ys[1..] == zs && zs[1..] == [];
    assert xs[0] == Answer(one, false) && ys[0] == Body([2], false) && zs[0] == Answer(three, true);
    assert Received(ms) == [1, 3] by {
      hide Buffered, Passed;
      assert Received(zs) == three;
      assert Received(ys) == three;
      assert Received(xs) == one + three;
    }
    hide Received;
    assert [] + one == one && one + [2] == both && both + three == [1, 2, 3] && three + [] == three;
    assert Passed([], ms) == Passed([], xs) == Passed(one, ys) == Passed(both, zs);
    assert Buffered(true, zs) && Buffered(true, ys) && Buffered(true, xs);
  }

  /** A second buffered response that is not JSON: Envoy receives the first one again in front of it. */
  lemma FirstResponseRepeated()
    ensures var env, ms := Demo(false, true), [Announce([]), Answer([1], true), Announce([]), Answer([2], true)];
            && Run(env, FRESH, ms).exit.None? && Received(ms) == [1, 2]
            && ResponseBytes(Run(env, FRESH, ms).st.sent) == [1, 1, 2]
  {
    var env, ms := Demo(false, true), [Announce([]), Answer([1], true), Announce([]), Answer([2], true)];
    TwoResponses(env, ms);
    DemoContract(false, true);
    StreamingFields();
    assert forall b, doc :: env.decode(b, doc).None?;
    hide Run, Demo, Responses, BufferedReplies, AnyEventStream, FinalReplies, Received;
    GoesOn(env, FRESH, ms);
    AllBufferedReplies(env, ms, Closed);
    hide ResponseBytes, ResponseParts;
    PartsBytes(Run(env, FRESH, ms).st.sent);
    BothFinal(env);
  }

  lemma BothFinal(env: Env)
    requires env.Contract() && forall b, doc :: env.decode(b, doc).None?
    ensures ResponseBytes(FinalReplies(env, 1, map[], [1]) + FinalReplies(env, 2, map[], [1, 2])) == [1, 1, 2]
  {
    hide FinalReplies, ResponseBytes;
    ResponseBytesAppend(FinalReplies(env, 1, map[], [1]), FinalReplies(env, 2, map[], [1, 2]));
    PlainFinal(env, 1, [1]);
    PlainFinal(env, 2, [1, 2]);
    assert [1] + [1, 2] == [1, 1, 2];
  }

  lemma PlainFinal(env: Env, calls: nat, whole: Bytes)
    requires env.Contract() && env.decode(whole, map[]).None?
    ensures ResponseBytes(FinalReplies(env, calls, map[], whole)) == whole
  {
    hide ResponseReplies;
    BodyTyped(env, whole, true);
  }

  lemma TwoResponses(env: Env, ms: seq<Req>)
    requires ms == [Announce([]), Answer([1], true), Announce([]), Answer([2], true)]
    requires forall b, doc :: env.decode(b, doc).None?
    ensures Responses(false, ms) && Received(ms) == [1, 2]
    ensures BufferedReplies(env, 0, map[], [], ms)
         == FinalReplies(env, 1, map[], [1]) + FinalReplies(env, 2, map[], [1, 2])
  {
    hide FinalReplies;
    var one: Bytes, two: Bytes, both: Bytes := [1], [2], [1, 2];
    var xs, ys, zs := ms[1..], ms[2..], ms[3..];
    assert xs[1..] == ys && ys[1..] == zs && zs[1..] == [];
    assert xs[0] == Answer(one, true) && ys[0] == Announce([]) && zs[0] == Answer(two, true);
    assert [] + one == one && one + two == both && two + [] == two && [] + two == two;
    assert Responses(true, zs) && Responses(false, ys) && Responses(true, xs);
    assert Received(ms) == [1, 2] by {
      hide Responses, BufferedReplies;
      assert Received(zs) == two;
      assert Received(ys) == [] + two;
      assert Received(xs) == one + two;
    }
    hide Received, Responses;
    var q := FinalReplies(env, 2, map[], both);
    assert q + [] == q;
    assert BufferedReplies(env, 2, map[], one, zs) == q;
    assert BufferedReplies(env, 1, map[], one, ys) == q;
    assert BufferedReplies(env, 1, map[], [], xs) == FinalReplies(env, 1, map[], one) + q;
  }

  predicate Unending(ms: seq<Req>)
  {
    forall i :: 0 <= i < |ms| ==>
      ms[i].msg.ResponseHeaders? || ms[i].msg.ResponseBody? || (ms[i].msg.RequestBody? && !ms[i].msg.eos)
  }

  /** With a codec that decodes nothing, what the shared buffer holds at the end of the response reaches Envoy. */
  lemma Leak(env: Env, ms: seq<Req>)
    requires env == Demo(false, true) && Buffered(false, ms) && Unending(ms) && Ended(ms)
    requires forall i :: 0 <= i < |ms| && ms[i].msg.ResponseHeaders? ==> ms[i].msg.fields == []
    ensures Run(env, FRESH, ms).exit.None? && ResponseBytes(Run(env, FRESH, ms).st.sent) == Passed([], ms)
  {
    DemoContract(false, true);
    StreamingFields();
    assert env.decode(Passed([], ms), map[]).None?;
    hide Run, Demo, Buffered, Passed, AnyEventStream;
    GoesOn(env, FRESH, ms);
    SharedBufferPassed(env, ms, Closed);
  }

  lemma {:induction false} GoesOn(env: Env, s: Stream, ms: seq<Req>)
    requires SendsSucceed(env) && Unending(ms)
    ensures Run(env, s, ms).exit.None?
    decreases |ms|
  {
    hide Step;
    if ms == [] {
    } else {
      ChunkTurn(env, s, ms[0]);
      GoesOn(env, Step(env, s, ms[0]).st, ms[1..]);
    }
  }

  lemma ChunkTurn(env: Env, s: Stream, m: Req)
    requires SendsSucceed(env) && Unending([m])
    ensures Step(env, s, m).exit.None?
  {
    assert [m][0] == m;
    var s1 := s.(ctx := s.ctx.(metadata := m.metadata));
    NoError(env, s1, m.msg);
    hide Absorb, Pass, PassOk;
    PassSendsAll(env, Absorb(env, s1, m.msg).st);
  }

  lemma NoError(env: Env, s: Stream, m: Msg)
    requires m.ResponseHeaders? || m.ResponseBody? || (m.RequestBody? && !m.eos)
    ensures Absorb(env, s, m).err.None?
  {
    hide AnyBadStatus, AnyEventStream, HandleWholeResponse;
  }
}
