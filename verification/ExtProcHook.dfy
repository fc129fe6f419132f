/**
  The completion hook (HandleResponseBodyComplete) over every run and every way of leaving Process:
  how often it runs, and exactly when that is once.
*/
module ExtProcHook {
  import opened ExtProc

  /** Does this message make the stream run the completion hook? */
  predicate Completes(env: Env, s: Stream, m: Msg)
  {
    && m.ResponseBody? && m.eos
    && (s.ctx.streaming || Finished(env, s, s.ctx.body + m.chunk))
  }

  /** The messages of a run, among those consumed before an exit, that run the hook. */
  function Completions(env: Env, s: Stream, ms: seq<Req>): nat
    decreases |ms|
  {
    if ms == [] then 0
    else
      var o := Step(env, s, ms[0]);
      (if Completes(env, s, ms[0].msg) then 1 else 0) + (if o.exit.Some? then 0 else Completions(env, o.st, ms[1..]))
  }

  function EndChunks(ms: seq<Req>): nat
  {
    if ms == [] then 0
    else (if ms[0].msg.ResponseBody? && ms[0].msg.eos then 1 else 0) + EndChunks(ms[1..])
  }

  lemma RequestQuiet(env: Env, s: Stream, whole: Bytes)
    ensures HandleWholeRequest(env, s, whole).st.hooks == s.hooks
    ensures HandleWholeRequest(env, s, whole).st.ctx.complete == s.ctx.complete
    ensures HandleWholeRequest(env, s, whole).st.ctx.streaming == s.ctx.streaming
  {
  }

  lemma AbsorbHook(env: Env, s: Stream, m: Msg)
    ensures Absorb(env, s, m).st.hooks == s.hooks + (if Completes(env, s, m) then 1 else 0)
    ensures Absorb(env, s, m).st.ctx.complete == (s.ctx.complete || Completes(env, s, m))
    ensures s.ctx.streaming ==> Absorb(env, s, m).st.ctx.streaming
  {
    match m
    case RequestHeaders(_, _, _, _) =>
    case RequestBody(chunk, eos) =>
      hide HandleWholeRequest;
      RequestQuiet(env, s, s.ctx.body + chunk);
    case ResponseHeaders(_) =>
      hide AnyBadStatus, AnyEventStream;
    case ResponseBody(chunk, eos) =>
      ResponseHook(env, s, chunk, eos);
      hide AbsorbResponseBody, Completes;
    case _ =>
  }

  /** The buffered response ran the hook. */
  predicate Finished(env: Env, s: Stream, whole: Bytes)
  {
    var d := env.decode(whole, s.ctx.respDoc);
    d.Some? && env.onResponse(|s.calls|, d.value).completed
  }

  lemma WholeResponseHook(env: Env, s: Stream, whole: Bytes)
    ensures HandleWholeResponse(env, s, whole).hooks == s.hooks + (if Finished(env, s, whole) then 1 else 0)
    ensures HandleWholeResponse(env, s, whole).ctx.complete == (s.ctx.complete || Finished(env, s, whole))
    ensures HandleWholeResponse(env, s, whole).ctx.streaming == s.ctx.streaming
  {
  }

  lemma ResponseHook(env: Env, s: Stream, chunk: Bytes, eos: bool)
    ensures AbsorbResponseBody(env, s, chunk, eos).hooks
         == s.hooks + (if Completes(env, s, ResponseBody(chunk, eos)) then 1 else 0)
    ensures AbsorbResponseBody(env, s, chunk, eos).ctx.complete
         == (s.ctx.complete || Completes(env, s, ResponseBody(chunk, eos)))
    ensures AbsorbResponseBody(env, s, chunk, eos).ctx.streaming == s.ctx.streaming
  {
    hide HandleWholeResponse, Finished;
    WholeResponseHook(env, s, s.ctx.body + chunk);
  }

  lemma PassFrame(env: Env, s: Stream)
    ensures Pass(env, s).ctx == s.ctx && Pass(env, s).hooks == s.hooks && Pass(env, s).calls == s.calls
  {
    hide EndIn;
  }

  lemma StepHook(env: Env, s: Stream, m: Req)
    ensures Step(env, s, m).st.hooks == s.hooks + (if Completes(env, s, m.msg) then 1 else 0)
    ensures Step(env, s, m).st.ctx.complete == (s.ctx.complete || Completes(env, s, m.msg))
  {
    var s1 := s.(ctx := s.ctx.(metadata := m.metadata));
    AbsorbHook(env, s1, m.msg);
    assert Completes(env, s1, m.msg) == Completes(env, s, m.msg);
    hide Absorb, Pass, PassOk, Completes;
    PassFrame(env, Absorb(env, s1, m.msg).st);
  }

  lemma {:induction false} RunHook(env: Env, s: Stream, ms: seq<Req>)
    ensures Run(env, s, ms).st.hooks == s.hooks + Completions(env, s, ms)
    ensures Run(env, s, ms).st.ctx.complete == (s.ctx.complete || Completions(env, s, ms) > 0)
    decreases |ms|
  {
    hide Step, Completes;
    if ms == [] {
    } else {
      StepHook(env, s, ms[0]);
      if Step(env, s, ms[0]).exit.None? { RunHook(env, Step(env, s, ms[0]).st, ms[1..]); }
    }
  }

  /** However Process returns: the hook has run once per completing message, and once more if there was none. */
  lemma HookCount(env: Env, ms: seq<Req>, end: Exit)
    ensures Process(env, ms, end).st.hooks
         == if Process(env, ms, end).st.ctx.target.Some? && Completions(env, FRESH, ms) == 0 then 1
            else Completions(env, FRESH, ms)
  {
    hide Run, Completions;
    RunHook(env, FRESH, ms);
  }

  lemma {:induction false} CompletionsBounded(env: Env, s: Stream, ms: seq<Req>)
    ensures Completions(env, s, ms) <= EndChunks(ms)
    decreases |ms|
  {
    hide Step;
    if ms == [] {
    } else if Step(env, s, ms[0]).exit.None? {
      CompletionsBounded(env, Step(env, s, ms[0]).st, ms[1..]);
    }
  }

  /**
    A scheduled request releases its pod exactly once: on every exit (context done, end of stream,
    receive error, failed send, immediate error) if at most one end-of-stream response chunk arrives.
  */
  lemma HookExactlyOnce(env: Env, ms: seq<Req>, end: Exit)
    requires Process(env, ms, end).st.ctx.target.Some? && EndChunks(ms) <= 1
    ensures Process(env, ms, end).st.hooks == 1
  {
    hide Process, Completions;
    HookCount(env, ms, end);
    CompletionsBounded(env, FRESH, ms);
  }

  // ---------- The exact condition ----------

  lemma StreamingStays(env: Env, s: Stream, m: Req)
    requires s.ctx.streaming
    ensures Step(env, s, m).st.ctx.streaming
  {
    var s1 := s.(ctx := s.ctx.(metadata := m.metadata));
    AbsorbHook(env, s1, m.msg);
    hide Absorb, Pass, PassOk, Completes;
    PassFrame(env, Absorb(env, s1, m.msg).st);
  }

  /** The messages a run receives: all of them, or those up to the one that ends the stream. */
  function Consumed(env: Env, s: Stream, ms: seq<Req>): seq<Req>
    decreases |ms|
  {
    if ms == [] then []
    else
      var o := Step(env, s, ms[0]);
      [ms[0]] + if o.exit.Some? then [] else Consumed(env, o.st, ms[1..])
  }

  lemma {:induction false} ConsumedAll(env: Env, s: Stream, ms: seq<Req>)
    ensures Consumed(env, s, ms) <= ms
    ensures Run(env, s, ms).exit.None? ==> Consumed(env, s, ms) == ms
    decreases |ms|
  {
    hide Step;
    if ms == [] {
    } else if Step(env, s, ms[0]).exit.None? {
      ConsumedAll(env, Step(env, s, ms[0]).st, ms[1..]);
      assert ms == [ms[0]] + ms[1..];
    } else {
      assert ms == [ms[0]] + ms[1..];
    }
  }

  /** On a streaming response every end-of-stream chunk received runs the hook, the last message included. */
  lemma {:induction false} StreamingCompletions(env: Env, s: Stream, ms: seq<Req>)
    requires s.ctx.streaming
    ensures Completions(env, s, ms) == EndChunks(Consumed(env, s, ms))
    decreases |ms|
  {
    hide Step;
    if ms == [] {
    } else {
      var o := Step(env, s, ms[0]);
      var rest := if o.exit.Some? then [] else Consumed(env, o.st, ms[1..]);
      assert Consumed(env, s, ms) == [ms[0]] + rest && ([ms[0]] + rest)[1..] == rest;
      StreamingStays(env, s, ms[0]);
      if o.exit.None? { StreamingCompletions(env, o.st, ms[1..]); }
    }
  }

  lemma {:induction false} CompletionsAppend(env: Env, s: Stream, a: seq<Req>, b: seq<Req>)
    requires Run(env, s, a).exit.None?
    ensures Completions(env, s, a + b) == Completions(env, s, a) + Completions(env, Run(env, s, a).st, b)
    decreases |a|
  {
    hide Step, Completes;
    if a == [] {
      assert a + b == b;
    } else {
      assert (a + b)[0] == a[0] && (a + b)[1..] == a[1..] + b;
      CompletionsAppend(env, Step(env, s, a[0]).st, a[1..], b);
    }
  }

  /**
    The limit of the guarantee, however the stream ends. Once the model server streams and nothing has
    completed yet, a scheduled request runs the hook exactly once if and only if at most one more
    end-of-stream chunk is received.
  */
  lemma StreamingHookOnceIff(env: Env, ms: seq<Req>, more: seq<Req>, end: Exit)
    requires Run(env, FRESH, ms).exit.None?
    requires Run(env, FRESH, ms).st.ctx.streaming && Run(env, FRESH, ms).st.hooks == 0
    requires Process(env, ms + more, end).st.ctx.target.Some?
    ensures Process(env, ms + more, end).st.hooks == 1
        <==> EndChunks(Consumed(env, Run(env, FRESH, ms).st, more)) <= 1
  {
    hide Run, Completions, Consumed;
    var s := Run(env, FRESH, ms).st;
    RunHook(env, FRESH, ms);
    CompletionsAppend(env, FRESH, ms, more);
    StreamingCompletions(env, s, more);
    HookCount(env, ms + more, end);
  }
}
