/**
  What the adjacency order of replies means for any two of them, how the phase moves along a run,
  and exactly when a second response breaks the order.
*/
module ExtProcPhase {
  import opened Basics
  import opened ExtProc
  import opened ExtProcOrder

  // ---------- Any two replies ----------

  /** May b come somewhere after a, on a stream with one response? */
  predicate Follows(a: Reply, b: Reply)
  {
    && !a.ImmediateReply?
    && !b.RequestHeaderReply?
    && (b.RequestBodyReply? ==> RequestSide(a) && (a.RequestBodyReply? ==> !a.eos))
    && (b.ResponseHeaderReply? ==> RequestSide(a))
    && (b.ResponseBodyReply? && a.ResponseBodyReply? ==> !a.eos)
  }

  lemma {:induction false} PairInOrder(t: seq<Reply>, i: nat, j: nat)
    requires InOrder(t, false) && i < j < |t|
    ensures Follows(t[i], t[j])
    decreases j - i
  {
    assert Next(t[j - 1], t[j], false);
    if i < j - 1 { PairInOrder(t, i, j - 1); }
  }

  lemma {:induction false} BodyHasHeader(t: seq<Reply>, j: nat) returns (i: nat)
    requires InOrder(t, false) && j < |t| && t[j].ResponseBodyReply?
    ensures i < j && t[i].ResponseHeaderReply?
    decreases j
  {
    assert j > 0 && Next(t[j - 1], t[j], false);
    if t[j - 1].ResponseHeaderReply? { i := j - 1; } else { i := BodyHasHeader(t, j - 1); }
  }

  /**
    Every run with at most one announced response: request-side replies all precede response-side
    ones; each header is sent at most once and before its bodies; nothing follows the end of a body on
    its side; an immediate error reply is unique and last.
  */
  lemma EnvoySeesOneConversation(env: Env, ms: seq<Req>, end: Exit, i: nat, j: nat)
    requires env.Contract() && Announced(ms) <= 1
    requires i < j < |Process(env, ms, end).st.sent|
    ensures Follows(Process(env, ms, end).st.sent[i], Process(env, ms, end).st.sent[j])
    ensures Process(env, ms, end).st.sent[j].ResponseBodyReply? ==>
              exists h :: 0 <= h < j && Process(env, ms, end).st.sent[h].ResponseHeaderReply?
  {
    hide Process, PrefixOfBatch;
    RepliesInOrder(env, ms, end);
    var t := Process(env, ms, end).st.sent;
    PairInOrder(t, i, j);
    if t[j].ResponseBodyReply? {
      var h := BodyHasHeader(t, j);
    }
  }

  /** Without the restriction: no request-side reply ever follows a response-side one. */
  lemma {:induction false} RequestSideFirst(t: seq<Reply>, again: bool, i: nat, j: nat)
    requires InOrder(t, again) && i < j < |t|
    ensures ResponseSide(t[i]) || t[i].ImmediateReply? ==> !RequestSide(t[j])
    ensures !t[j].RequestHeaderReply? && !t[i].ImmediateReply?
    decreases j - i
  {
    assert Next(t[j - 1], t[j], again);
    if i < j - 1 {
      RequestSideFirst(t, again, i, j - 1);
    }
  }

  // ---------- The phase along a run ----------

  lemma AfterPassGrows(env: Env, s: Stream)
    ensures s.sent <= Pass(env, s).sent
  {
  }

  lemma StepGrows(env: Env, s: Stream, m: Req)
    ensures s.sent <= Step(env, s, m).st.sent
  {
    hide Absorb, Pass, PassOk;
    var s1 := s.(ctx := s.ctx.(metadata := m.metadata));
    AbsorbFrame(env, s1, m.msg);
    AfterPassGrows(env, Absorb(env, s1, m.msg).st);
  }

  /** What has been sent stays sent. */
  lemma {:induction false} RunGrows(env: Env, s: Stream, ms: seq<Req>)
    ensures s.sent <= Run(env, s, ms).st.sent
    decreases |ms|
  {
    hide Step;
    if ms == [] {
    } else {
      StepGrows(env, s, ms[0]);
      if Step(env, s, ms[0]).exit.None? { RunGrows(env, Step(env, s, ms[0]).st, ms[1..]); }
    }
  }

  lemma {:induction false} TracePhaseRises(t: seq<Reply>, k: nat)
    requires InOrder(t, false) && k <= |t|
    ensures PhaseOf(t[..k]).Rank() <= PhaseOf(t).Rank()
    decreases |t| - k
  {
    if k == |t| {
      assert t[..k] == t;
    } else {
      TracePhaseRises(t, k + 1);
      if k > 0 { assert Next(t[k - 1], t[k], false); }
    }
  }

  lemma {:induction false} AnnouncedAppend(a: seq<Req>, b: seq<Req>)
    ensures Announced(a + b) == Announced(a) + Announced(b)
    decreases |a|
  {
    if a == [] {
      assert a + b == b;
    } else {
      assert (a + b)[1..] == a[1..] + b;
      AnnouncedAppend(a[1..], b);
    }
  }

  /** One message, whether or not it ends the stream: with one response at most the phase does not go back. */
  lemma StepPhase(env: Env, s: Stream, m: Req, n: nat)
    requires env.Contract() && Live(env, s, n) && n + Count(m.msg) <= 1
    ensures s.phase.Rank() <= Step(env, s, m).st.phase.Rank()
  {
    hide Live, Absorb, Pass, PassOk;
    LivePhase(env, s, n);
    var s1 := s.(ctx := s.ctx.(metadata := m.metadata));
    AbsorbFrame(env, s1, m.msg);
    PassPhase(env, Absorb(env, s1, m.msg).st);
  }

  lemma {:induction false} RunPhase(env: Env, s: Stream, ms: seq<Req>, n: nat)
    requires env.Contract() && Live(env, s, n) && n + Announced(ms) <= 1
    ensures s.phase.Rank() <= Run(env, s, ms).st.phase.Rank()
    decreases |ms|
  {
    hide Live, Step, Trace;
    if ms == [] {
    } else {
      StepPhase(env, s, ms[0], n);
      StepKeeps(env, s, ms[0], n);
      if Step(env, s, ms[0]).exit.None? { RunPhase(env, Step(env, s, ms[0]).st, ms[1..], n + Count(ms[0].msg)); }
    }
  }

  /**
    On any run with at most one announced response, cut off anywhere, by a failing send or an immediate
    error included, the phase never goes back.
  */
  lemma PhaseNeverDecreases(env: Env, ms: seq<Req>, more: seq<Req>)
    requires env.Contract() && Announced(ms + more) <= 1
    ensures Run(env, FRESH, ms).st.phase.Rank() <= Run(env, FRESH, ms + more).st.phase.Rank()
  {
    hide Run, Live, Trace;
    RunAppend(env, FRESH, ms, more);
    if Run(env, FRESH, ms).exit.None? {
      FreshLive(env);
      RunKeeps(env, FRESH, ms, 0);
      AnnouncedAppend(ms, more);
      RunPhase(env, Run(env, FRESH, ms).st, more, Announced(ms));
    }
  }

  lemma LiveInOrder(env: Env, ms: seq<Req>)
    requires env.Contract()
    ensures InOrder(Run(env, FRESH, ms).st.sent, Announced(ms) >= 2)
  {
    hide Run, Live, PrefixOfBatch, RequestBodies, InOrder;
    FreshLive(env);
    RunKeeps(env, FRESH, ms, 0);
  }

  /** From a live stream on which a response was announced no run sends a request-side reply. */
  lemma AnsweredRun(env: Env, ms: seq<Req>, more: seq<Req>, j: nat)
    requires env.Contract() && Run(env, FRESH, ms).exit.None? && Announced(ms) >= 1
    requires |Run(env, FRESH, ms).st.sent| <= j < |Run(env, FRESH, ms + more).st.sent|
    ensures !RequestSide(Run(env, FRESH, ms + more).st.sent[j])
  {
    hide Run, InOrder, Live, Due;
    RunAppend(env, FRESH, ms, more);
    PhaseIsTrace(env, ms);
    LiveInOrder(env, ms + more);
    var s, t := Run(env, FRESH, ms).st, Run(env, FRESH, ms + more).st;
    RunGrows(env, s, more);
    var i := |s.sent| - 1;
    assert s.sent[i] == t.sent[i] && (ResponseSide(t.sent[i]) || t.sent[i].ImmediateReply?);
    RequestSideFirst(t.sent, Announced(ms + more) >= 2, i, j);
  }

  /** The turn of a ResponseHeaders message itself, failing sends included. */
  lemma AnnouncingTurn(env: Env, s: Stream, h: Req, n: nat, j: nat)
    requires env.Contract() && Live(env, s, n) && h.msg.ResponseHeaders?
    requires |s.sent| <= j < |Step(env, s, h).st.sent|
    ensures !RequestSide(Step(env, s, h).st.sent[j])
  {
    var s1 := s.(ctx := s.ctx.(metadata := h.metadata));
    var a := Absorb(env, s1, h.msg);
    AbsorbKeeps(env, s, h, n);
    AbsorbFrame(env, s1, h.msg);
    assert a.err.None?;
    hide Live, Absorb, InOrder, RequestBodies, IsBatch;
    ResponseDue(env, a.st);
    PassSends(env, a.st);
  }

  lemma ResponseDue(env: Env, s: Stream)
    requires SlotsTyped(env, s) && s.phase.ResponseReceived?
    ensures forall i :: 0 <= i < |Due(s)| ==> ResponseSide(Due(s)[i])
  {
  }

  lemma PassSends(env: Env, s: Stream)
    ensures exists k :: 0 <= k <= |Due(s)| && Pass(env, s).sent == s.sent + Due(s)[..k]
  {
    var k := Delivered(env, s.attempts, |Due(s)|);
    assert Pass(env, s).sent == s.sent + Due(s)[..k];
  }

  /** From the turn in which a response is announced on, however it ends, no request-side reply is sent. */
  lemma NoRequestReplyAfterResponse(env: Env, ms: seq<Req>, h: Req, more: seq<Req>, j: nat)
    requires env.Contract() && h.msg.ResponseHeaders?
    requires |Run(env, FRESH, ms).st.sent| <= j < |Run(env, FRESH, ms + [h] + more).st.sent|
    ensures !RequestSide(Run(env, FRESH, ms + [h] + more).st.sent[j])
  {
    hide Run, Live, Step, Due, InOrder;
    RunAppend(env, FRESH, ms + [h], more);
    RunAppend(env, FRESH, ms, [h]);
    FreshLive(env);
    RunKeeps(env, FRESH, ms, 0);
    var s := Run(env, FRESH, ms).st;
    OneMessage(env, s, h);
    var t := Run(env, FRESH, ms + [h]);
    if j < |t.st.sent| {
      AnnouncingTurn(env, s, h, Announced(ms), j);
      RunGrows(env, t.st, more);
    } else {
      AnnouncedAppend(ms, [h]);
      AnsweredRun(env, ms + [h], more, j);
    }
  }

  // ---------- A second response ----------

  function HeaderReplies(t: seq<Reply>): nat
  {
    if t == [] then 0 else (if t[0].ResponseHeaderReply? then 1 else 0) + HeaderReplies(t[1..])
  }

  lemma {:induction false} HeaderRepliesAppend(t: seq<Reply>, u: seq<Reply>)
    ensures HeaderReplies(t + u) == HeaderReplies(t) + HeaderReplies(u)
    decreases |t|
  {
    if t == [] {
      assert t + u == u;
    } else {
      assert (t + u)[1..] == t[1..] + u;
      HeaderRepliesAppend(t[1..], u);
    }
  }

  lemma HeaderRepliesNone(t: seq<Reply>)
    requires forall i :: 0 <= i < |t| ==> !t[i].ResponseHeaderReply?
    ensures HeaderReplies(t) == 0
  {
  }

  lemma DueHeaders(env: Env, s: Stream)
    requires SlotsTyped(env, s) && (s.phase.ResponseReceived? ==> s.respHeader.Some?)
    ensures HeaderReplies(Due(s)) == if s.phase.ResponseReceived? then 1 else 0
  {
    HeaderRepliesNone(DueBody(s));
    if HeaderDue(s) {
      HeaderRepliesAppend([DueHeader(s)], DueBody(s));
      assert [DueHeader(s)][1..] == [];
    }
  }

  lemma StepHeaderReplies(env: Env, s: Stream, m: Req, n: nat)
    requires env.Contract() && Live(env, s, n) && Step(env, s, m).exit.None?
    ensures HeaderReplies(Step(env, s, m).st.sent) == HeaderReplies(s.sent) + Count(m.msg)
  {
    var s1 := s.(ctx := s.ctx.(metadata := m.metadata));
    var a := Absorb(env, s1, m.msg);
    assert !s.phase.ResponseReceived? by { LivePhase(env, s, n); hide Live; }
    AbsorbFrame(env, s1, m.msg);
    AbsorbKeeps(env, s, m, n);
    AllSent(env, a.st);
    hide Absorb, Pass, TraceInv, PhaseInv, PhaseOf, IsBatch, Live, SlotsTyped;
    DueHeaders(env, a.st);
    HeaderRepliesAppend(s.sent, Due(a.st));
  }

  lemma AllSent(env: Env, s: Stream)
    ensures PassOk(env, s) ==> Pass(env, s).sent == s.sent + Due(s)
  {
    assert Due(s)[..|Due(s)|] == Due(s);
  }

  lemma {:induction false} RunHeaderReplies(env: Env, s: Stream, ms: seq<Req>, n: nat)
    requires env.Contract() && Live(env, s, n) && Run(env, s, ms).exit.None?
    ensures HeaderReplies(Run(env, s, ms).st.sent) == HeaderReplies(s.sent) + Announced(ms)
    decreases |ms|
  {
    hide Live, Step;
    if ms == [] {
    } else {
      StepHeaderReplies(env, s, ms[0], n);
      StepKeeps(env, s, ms[0], n);
      RunHeaderReplies(env, Step(env, s, ms[0]).st, ms[1..], n + Count(ms[0].msg));
    }
  }

  lemma {:induction false} OneHeaderReply(t: seq<Reply>)
    requires InOrder(t, false)
    ensures HeaderReplies(t) <= 1
    decreases |t|
  {
    if t == [] {
    } else {
      if t[0].ResponseHeaderReply? {
        forall j | 0 <= j < |t[1..]| ensures !t[1..][j].ResponseHeaderReply? { PairInOrder(t, 0, j + 1); }
        HeaderRepliesNone(t[1..]);
      } else {
        assert |t| > 1 ==> Next(t[0], t[1], false);
        forall j | 1 <= j < |t[1..]| ensures Next(t[1..][j - 1], t[1..][j], false) {
          assert Next(t[j], t[j + 1], false);
        }
        OneHeaderReply(t[1..]);
      }
    }
  }

  /**
    The exact limit of the order guarantee: on a stream still running, the replies respect the order of
    a single response if and only if at most one ResponseHeaders message arrived.
  */
  lemma OneResponseIffAnnouncedOnce(env: Env, ms: seq<Req>)
    requires env.Contract() && Run(env, FRESH, ms).exit.None?
    ensures InOrder(Run(env, FRESH, ms).st.sent, false) <==> Announced(ms) <= 1
  {
    hide Run, Live, InOrder;
    FreshLive(env);
    LiveInOrder(env, ms);
    RunHeaderReplies(env, FRESH, ms, 0);
    if InOrder(Run(env, FRESH, ms).st.sent, false) { OneHeaderReply(Run(env, FRESH, ms).st.sent); }
  }

  /**
    The exact case in which one message takes the phase back, whether or not the stream survives it: a
    response is announced while one is being answered and its header does not go out, or after the end of
    a response body when not everything goes out or no end is queued again.
  */
  lemma PhaseDropsIff(env: Env, s: Stream, m: Req, n: nat)
    requires env.Contract() && Live(env, s, n)
    ensures Step(env, s, m).st.phase.Rank() < s.phase.Rank()
        <==> && m.msg.ResponseHeaders?
             && (|| (s.phase == HeaderResponseResponseComplete && !env.sendOk(s.attempts))
                 || (s.phase == BodyResponseResponsesComplete
                     && (!EndIn(s.respBody) || Delivered(env, s.attempts, |s.respBody| + 1) <= |s.respBody|)))
  {
    hide Absorb, Pass, PassOk, Live, Trace;
    LivePhase(env, s, n);
    var s1 := s.(ctx := s.ctx.(metadata := m.metadata));
    var a := Absorb(env, s1, m.msg).st;
    AbsorbFrame(env, s1, m.msg);
    AnnouncedTyped(env, s, n);
    if m.msg.ResponseHeaders? {
      HeadersPhase(env, s1, m.msg.fields);
      assert Absorb(env, s1, m.msg).err.None? by { NoHeaderError(env, s1, m.msg.fields); }
      AnnouncedPass(env, a);
    } else {
      PassPhase(env, a);
    }
  }

  lemma HeadersPhase(env: Env, s: Stream, fields: seq<Field>)
    ensures var a := Absorb(env, s, ResponseHeaders(fields)).st;
            a.phase == ResponseReceived && a.respHeader == Some(ResponseHeaderReply(fields)) && a.respBody == s.respBody
  {
  }

  lemma NoHeaderError(env: Env, s: Stream, fields: seq<Field>)
    ensures Absorb(env, s, ResponseHeaders(fields)).err.None?
  {
  }

  lemma AnnouncedTyped(env: Env, s: Stream, n: nat)
    requires Live(env, s, n)
    ensures HeadersTyped(s) && s.phase != ResponseReceived && s.phase.Rank() <= 6
    ensures EndsLast(s.respBody)
  {
    hide InOrder, IsBatch, RequestBodies, Due;
  }

  /** The pass after an announcement: nothing, the header, or the header and some of the bodies go out. */
  lemma AnnouncedPass(env: Env, a: Stream)
    requires a.phase == ResponseReceived && a.respHeader.Some? && a.respHeader.value.ResponseHeaderReply?
    requires EndsLast(a.respBody)
    ensures Pass(env, a).phase
         == if !env.sendOk(a.attempts) then ResponseReceived
            else if EndIn(a.respBody) && Delivered(env, a.attempts, |a.respBody| + 1) == |a.respBody| + 1
              then BodyResponseResponsesComplete
            else HeaderResponseResponseComplete
  {
    var k := Delivered(env, a.attempts, |a.respBody| + 1);
    assert Due(a) == [DueHeader(a)] + a.respBody;
    if k >= 1 {
      assert Due(a)[..k] == [DueHeader(a)] + a.respBody[..k - 1];
      EndInCons(DueHeader(a), a.respBody[..k - 1]);
      EndInPart(a.respBody, k - 1);
    }
    hide EndIn;
    if a.respBody == [] { EndInNone(); }
  }

  predicate EndsLast(q: seq<Reply>) { forall i :: 0 <= i < |q| && EndsResponse(q[i]) ==> i == |q| - 1 }

  lemma EndInPart(q: seq<Reply>, k: nat)
    requires k <= |q| && EndsLast(q)
    ensures EndIn(q[..k]) <==> EndIn(q) && k == |q|
  {
    if k == |q| {
      assert q[..k] == q;
    } else {
      assert forall i :: 0 <= i < k ==> q[..k][i] == q[i];
    }
  }

  lemma PassPhase(env: Env, a: Stream)
    ensures Pass(env, a).phase.Rank() >= a.phase.Rank()
  {
    hide EndIn;
  }
}
