/**
  The incremental request loop refines a one-shot handler on the whole body: how Envoy cuts the
  request body into chunks has no influence on anything that follows.
*/
module ExtProcChunking {
  import opened Basics
  import opened ExtProc

  /** Request body messages of which exactly the last one ends the stream. */
  predicate ChunkRun(ms: seq<Req>)
  {
    && |ms| > 0
    && forall i :: 0 <= i < |ms| ==> ms[i].msg.RequestBody? && (ms[i].msg.eos <==> i == |ms| - 1)
  }

  function WholeBody(ms: seq<Req>): Bytes
    requires forall i :: 0 <= i < |ms| ==> ms[i].msg.RequestBody?
  {
    if ms == [] then [] else ms[0].msg.chunk + WholeBody(ms[1..])
  }

  /** The single message that carries everything a chunk run carries. */
  function OneShot(ms: seq<Req>): Req
    requires ChunkRun(ms)
  {
    Req(ms[|ms| - 1].metadata, RequestBody(WholeBody(ms), true))
  }

  /** A chunk that does not end the stream only grows the buffer; nothing is sent, nobody is called. */
  lemma BufferedChunk(env: Env, s: Stream, m: Req)
    requires Due(s) == [] && m.msg.RequestBody? && !m.msg.eos
    ensures Step(env, s, m)
         == Outcome(s.(ctx := s.ctx.(metadata := m.metadata, body := s.ctx.body + m.msg.chunk)), None)
  {
    var t := s.(ctx := s.ctx.(metadata := m.metadata, body := s.ctx.body + m.msg.chunk));
    NothingDue(s);
    IdlePass(env, t);
  }

  lemma NothingDue(s: Stream)
    requires Due(s) == []
    ensures !HeaderDue(s) && !RequestBodyDue(s) && !ResponseBodyDue(s)
  {
  }

  /** The last chunk after a buffered one is the last chunk of the joined body. */
  lemma MergeIntoLast(env: Env, s: Stream, meta: Json, first: Bytes, last: Req)
    requires last.msg.RequestBody? && last.msg.eos
    ensures Step(env, s.(ctx := s.ctx.(metadata := meta, body := s.ctx.body + first)), last)
         == Step(env, s, Req(last.metadata, RequestBody(first + last.msg.chunk, true)))
  {
    var t := s.(ctx := s.ctx.(metadata := meta, body := s.ctx.body + first));
    assert t.ctx.body + last.msg.chunk == s.ctx.body + (first + last.msg.chunk);
    var whole := t.ctx.body + last.msg.chunk;
    var s1, t1 := s.(ctx := s.ctx.(metadata := last.metadata)), t.(ctx := t.ctx.(metadata := last.metadata));
    assert s1.(ctx := s1.ctx.(body := whole)) == t1.(ctx := t1.ctx.(body := whole));
    WholeRequestIgnoresBuffer(env, s1, whole);
    WholeRequestIgnoresBuffer(env, t1, whole);
  }

  /** From any state with nothing due, receiving the chunks is receiving the whole body at once. */
  lemma {:induction false} ChunksRefineOneShot(env: Env, s: Stream, ms: seq<Req>)
    requires Due(s) == [] && ChunkRun(ms)
    ensures Run(env, s, ms) == Step(env, s, OneShot(ms))
    decreases |ms|
  {
    var m, rest := ms[0], ms[1..];
    if rest == [] {
      assert WholeBody(ms) == m.msg.chunk + WholeBody([]);
      assert OneShot(ms) == m;
      assert Run(env, Step(env, s, m).st, []) == Outcome(Step(env, s, m).st, None);
    } else {
      var t := s.(ctx := s.ctx.(metadata := m.metadata, body := s.ctx.body + m.msg.chunk));
      BufferedChunk(env, s, m);
      StepSettles(env, s, m);
      ChunksRefineOneShot(env, t, rest);
      MergeIntoLast(env, s, m.metadata, m.msg.chunk, OneShot(rest));
      assert rest[|rest| - 1] == ms[|ms| - 1];
    }
  }

  /**
    Two streams with the same messages before and after the request body, whose body chunks join to
    the same bytes and end with the same metadata, are indistinguishable: same replies in the same
    order, same director calls, same gauge moves, same hook runs, same exit.
  */
  lemma {:induction false} ChunkingIndependence(
    env: Env, before: seq<Req>, ms: seq<Req>, ns: seq<Req>, after: seq<Req>, end: Exit)
    requires ChunkRun(ms) && ChunkRun(ns)
    requires WholeBody(ms) == WholeBody(ns) && ms[|ms| - 1].metadata == ns[|ns| - 1].metadata
    ensures Process(env, before + ms + after, end) == Process(env, before + ns + after, end)
  {
    hide Step;
    RunAppend(env, FRESH, before + ms, after);
    RunAppend(env, FRESH, before + ns, after);
    RunAppend(env, FRESH, before, ms);
    RunAppend(env, FRESH, before, ns);
    var o := Run(env, FRESH, before);
    if o.exit.None? {
      assert Due(FRESH) == [];
      RunSettles(env, FRESH, before);
      ChunksRefineOneShot(env, o.st, ms);
      ChunksRefineOneShot(env, o.st, ns);
    }
  }
}
