/**
  Conservation of the running-requests gauge, for one stream and for any number of streams whose turns
  and single gauge moves interleave.
*/
module ExtProcGauge {
  import opened ExtProc
  import opened ExtProcOrder

  function EndsRequest(m: Msg): nat { if m.RequestBody? && m.eos then 1 else 0 }

  // ---------- One stream ----------

  /** The gauge moves of a stream that has received r complete request bodies. */
  predicate GaugeInv(s: Stream, r: nat)
  {
    && (if s.running then |s.gauge| == 1 && s.gauge[0].Inc? && s.phase.Rank() >= 2 else s.gauge == [])
    && (r == 0 ==> !s.running && s.reqBody == [])
    && (r == 1 && s.running ==> s.gauge[0].model == s.ctx.model)
  }

  lemma AbsorbModel(env: Env, s: Stream, m: Msg)
    requires EndsRequest(m) == 0
    ensures Absorb(env, s, m).st.ctx.model == s.ctx.model && Absorb(env, s, m).st.reqBody == s.reqBody
  {
    match m
    case ResponseBody(chunk, eos) =>
      hide HandleWholeResponse;
      WholeResponseModel(env, s, s.ctx.body + chunk);
    case _ =>
      hide HandleWholeRequest, AnyBadStatus, AnyEventStream;
  }

  lemma WholeResponseModel(env: Env, s: Stream, whole: Bytes)
    ensures HandleWholeResponse(env, s, whole).ctx.model == s.ctx.model
    ensures HandleWholeResponse(env, s, whole).reqBody == s.reqBody
  {
    hide ResponseReplies;
    match env.decode(whole, s.ctx.respDoc)
    case None =>
    case Some(d) =>
  }

  lemma AbsorbGauge(env: Env, s: Stream, m: Msg, r: nat)
    requires GaugeInv(s, r)
    ensures GaugeInv(Absorb(env, s, m).st, r + EndsRequest(m))
  {
    AbsorbFrame(env, s, m);
    if EndsRequest(m) == 0 { AbsorbModel(env, s, m); }
    hide Absorb;
  }

  lemma PassGauge(env: Env, s: Stream, r: nat)
    requires GaugeInv(s, r)
    ensures GaugeInv(Pass(env, s), r)
  {
    hide EndIn;
  }

  lemma StepGauge(env: Env, s: Stream, m: Req, r: nat)
    requires GaugeInv(s, r)
    ensures GaugeInv(Step(env, s, m).st, r + EndsRequest(m.msg))
  {
    var s1 := s.(ctx := s.ctx.(metadata := m.metadata));
    assert GaugeInv(s1, r);
    AbsorbGauge(env, s1, m.msg, r);
    var a := Absorb(env, s1, m.msg).st;
    hide Absorb, Pass, PassOk;
    PassGauge(env, a, r + EndsRequest(m.msg));
  }

  lemma LevelAppend(a: seq<GaugeOp>, b: seq<GaugeOp>, x: string)
    ensures Level(a + b, x) == Level(a, x) + Level(b, x)
  {
    if a == [] {
      assert a + b == b;
    } else {
      assert (a + b)[1..] == a[1..] + b;
      LevelAppend(a[1..], b, x);
    }
  }

  lemma LevelOne(op: GaugeOp, x: string)
    ensures Level([op], x) == if op.model != x then 0 else if op.Inc? then 1 else -1
  {
    assert [op][1..] == [];
  }

  /** A closed stream gives back what it took, for every model, exactly if it still names the model it counted. */
  lemma TeardownBalanced(s: Stream, r: nat)
    requires GaugeInv(s, r)
    ensures (forall x :: Level(Teardown(s).gauge, x) == 0) <==> (s.running ==> s.gauge[0].model == s.ctx.model)
  {
    if s.running {
      var m, d := s.gauge[0].model, s.ctx.model;
      assert Teardown(s).gauge == [Inc(m)] + [Dec(d)];
      forall x ensures Level(Teardown(s).gauge, x) == (if x == m then 1 else 0) - (if x == d then 1 else 0) {
        LevelAppend([Inc(m)], [Dec(d)], x);
        LevelOne(Inc(m), x);
        LevelOne(Dec(d), x);
      }
      if m != d { assert Level(Teardown(s).gauge, m) == 1; }
    }
  }

  /**
    The limit of conservation. A request is being served and counted under its model; one more complete
    request body arrives and the director answers it. Closing afterwards balances the gauge if and only
    if the director named the same model again.
  */
  lemma SecondBodyBalancedIff(env: Env, s: Stream, m: Req)
    requires GaugeInv(s, 1) && s.running
    requires m.msg.RequestBody? && m.msg.eos && env.decode(s.ctx.body + m.msg.chunk, s.ctx.doc).Some?
    ensures var view := RequestView(s.ctx.headers, env.decode(s.ctx.body + m.msg.chunk, s.ctx.doc).value, m.metadata);
            (forall x :: Level(Teardown(Step(env, s, m).st).gauge, x) == 0)
            <==> env.route(|s.calls|, view).model == s.ctx.model
  {
    var s1 := s.(ctx := s.ctx.(metadata := m.metadata));
    var a := Absorb(env, s1, m.msg).st;
    StepGauge(env, s, m, 1);
    TeardownBalanced(Step(env, s, m).st, 2);
    AbsorbFrame(env, s1, m.msg);
    RoutedModel(env, s1, s1.ctx.body + m.msg.chunk);
    hide HandleWholeRequest, Pass, PassOk, Teardown, Level;
    RunningPass(env, a);
  }

  lemma RoutedModel(env: Env, s: Stream, whole: Bytes)
    requires env.decode(whole, s.ctx.doc).Some?
    ensures var view := RequestView(s.ctx.headers, env.decode(whole, s.ctx.doc).value, s.ctx.metadata);
            HandleWholeRequest(env, s, whole).st.ctx.model == env.route(|s.calls|, view).model
  {
  }

  lemma RunningPass(env: Env, s: Stream)
    requires s.running && s.phase.Rank() >= 2
    ensures Pass(env, s).running && Pass(env, s).gauge == s.gauge && Pass(env, s).ctx == s.ctx
  {
    hide EndIn;
  }

  // ---------- Many streams ----------

  /**
    A connection: its collaborators, its state, and what has been received on it. `pending` are the gauge
    moves of its last turn that it has not made yet.
  */
  datatype Conn = Conn(env: Env, st: Stream, live: bool, announced: nat, requests: nat, pending: seq<GaugeOp>)

  /** All connections ever opened, and the moves made on the shared gauge, in order. */
  datatype Server = Server(conns: seq<Conn>, gauge: seq<GaugeOp>)

  /** A turn touches only its own stream, but for its moves on the gauge: each of them is an event of its own. */
  datatype Event =
    | Open(env: Env)
    | Deliver(i: nat, m: Req)
    | Hangup(i: nat)
    | Move(i: nat)

  /** One turn of one stream; if the turn makes Process return, the deferred function runs too. */
  function Turn(c: Conn, m: Req): Conn
  {
    var o := Step(c.env, c.st, m);
    Become(c, if o.exit.Some? then Teardown(o.st) else o.st, o.exit.None?)
      .(announced := c.announced + Count(m.msg), requests := c.requests + EndsRequest(m.msg))
  }

  function Leave(c: Conn): Conn { Become(c, Teardown(c.st), false) }

  /** The connection in its new state, with the gauge moves that led there still to be made. */
  function Become(c: Conn, t: Stream, live: bool): Conn
  {
    c.(st := t, live := live,
       pending := if |c.st.gauge| <= |t.gauge| then t.gauge[|c.st.gauge|..] else [])
  }

  /** The gauge moves a connection has made. */
  function Made(c: Conn): seq<GaugeOp>
  {
    if |c.pending| <= |c.st.gauge| then c.st.gauge[..|c.st.gauge| - |c.pending|] else []
  }

  /** Events that cannot happen do nothing: a stream that has ended or whose turn is not over takes no message. */
  function React(v: Server, e: Event): Server
  {
    match e
    case Open(env) => v.(conns := v.conns + [Conn(env, FRESH, true, 0, 0, [])])
    case Deliver(i, m) =>
      if i < |v.conns| && v.conns[i].live && v.conns[i].pending == [] then
        v.(conns := v.conns[i := Turn(v.conns[i], m)])
      else v
    case Hangup(i) =>
      if i < |v.conns| && v.conns[i].live && v.conns[i].pending == [] then
        v.(conns := v.conns[i := Leave(v.conns[i])])
      else v
    case Move(i) =>
      if i < |v.conns| && v.conns[i].pending != [] then
        Server(v.conns[i := v.conns[i].(pending := v.conns[i].pending[1..])], v.gauge + [v.conns[i].pending[0]])
      else v
  }

  function Exec(v: Server, es: seq<Event>): Server
    decreases |es|
  {
    if es == [] then v else Exec(React(v, es[0]), es[1..])
  }

  /** A live stream that has sent its request body batch, counted under the model it names. */
  predicate Serving(c: Conn, x: string)
  {
    c.live && RequestBodies(c.st.sent) != [] && c.st.ctx.model == x
  }

  function Serves(cs: seq<Conn>, x: string): nat
  {
    if cs == [] then 0 else (if Serving(cs[0], x) then 1 else 0) + Serves(cs[1..], x)
  }

  /** The connection has raised the gauge of the model and not lowered it again. */
  predicate Holds(c: Conn, x: string) { Made(c) == [Inc(x)] }

  function Holders(cs: seq<Conn>, x: string): nat
  {
    if cs == [] then 0 else (if Holds(cs[0], x) then 1 else 0) + Holders(cs[1..], x)
  }

  /** Nothing taken, or taken and given back. */
  predicate Repaid(g: seq<GaugeOp>) { g == [] || (g[0].Inc? && g == [g[0], Dec(g[0].model)]) }

  ghost predicate ConnInv(c: Conn)
  {
    && c.env.Contract()
    && |c.pending| <= |c.st.gauge| && c.pending == c.st.gauge[|c.st.gauge| - |c.pending|..]
    && (c.live ==> Live(c.env, c.st, c.announced) && GaugeInv(c.st, c.requests))
    && (!c.live && c.requests <= 1 ==> Repaid(c.st.gauge))
  }

  lemma FreshInv(env: Env)
    requires env.Contract()
    ensures ConnInv(Conn(env, FRESH, true, 0, 0, []))
  {
    FreshLive(env);
  }

  lemma TeardownInv(s: Stream, r: nat)
    requires GaugeInv(s, r)
    ensures r <= 1 ==> Repaid(Teardown(s).gauge)
    ensures s.gauge <= Teardown(s).gauge
  {
  }

  lemma StepGaugeGrows(env: Env, s: Stream, m: Req)
    ensures s.gauge <= Step(env, s, m).st.gauge
  {
    var s1 := s.(ctx := s.ctx.(metadata := m.metadata));
    AbsorbFrame(env, s1, m.msg);
    hide Absorb, PhaseAfter;
  }

  /** A turn makes no move by itself: it leaves its moves to be made. */
  lemma TurnInv(c: Conn, m: Req)
    requires ConnInv(c) && c.live && c.pending == []
    ensures ConnInv(Turn(c, m)) && Made(Turn(c, m)) == Made(c)
  {
    hide Live, Step, Trace, GaugeInv, Teardown, Repaid;
    StepKeeps(c.env, c.st, m, c.announced);
    StepGauge(c.env, c.st, m, c.requests);
    StepGaugeGrows(c.env, c.st, m);
    var o := Step(c.env, c.st, m);
    if o.exit.Some? { TeardownInv(o.st, c.requests + EndsRequest(m.msg)); }
  }

  lemma LeaveInv(c: Conn)
    requires ConnInv(c) && c.live && c.pending == []
    ensures ConnInv(Leave(c)) && Made(Leave(c)) == Made(c)
  {
    hide Live, GaugeInv, Teardown, Repaid;
    TeardownInv(c.st, c.requests);
  }

  lemma MoveInv(c: Conn)
    requires ConnInv(c) && c.pending != []
    ensures ConnInv(c.(pending := c.pending[1..]))
    ensures Made(c.(pending := c.pending[1..])) == Made(c) + [c.pending[0]]
  {
    hide Live, GaugeInv, Repaid;
  }

  /** What a stream with at most one request body has made of the gauge, in the middle of a turn as well. */
  lemma MadeLevel(c: Conn, x: string)
    requires ConnInv(c) && c.requests <= 1
    ensures Level(Made(c), x) == if Holds(c, x) then 1 else 0
  {
    hide Live;
    var g := c.st.gauge;
    if Made(c) == [] {
    } else if |Made(c)| == 1 {
      assert Made(c) == [g[0]] && g[0].Inc?;
      LevelOne(g[0], x);
    } else {
      assert Made(c) == [g[0]] + [Dec(g[0].model)];
      LevelAppend([g[0]], [Dec(g[0].model)], x);
      LevelOne(g[0], x);
      LevelOne(Dec(g[0].model), x);
    }
  }

  /** Between its turns a stream holds the gauge exactly while serving. */
  lemma HoldsIffServing(c: Conn, x: string)
    requires ConnInv(c) && c.requests <= 1 && c.pending == []
    ensures Holds(c, x) <==> Serving(c, x)
  {
    hide Live, RequestBodies;
    assert Made(c) == c.st.gauge;
    if c.live { RunningSent(c.env, c.st, c.announced); }
  }

  /** A live stream is running exactly if it has sent its request body batch. */
  lemma RunningSent(env: Env, s: Stream, n: nat)
    requires env.Contract() && Live(env, s, n)
    ensures s.running <==> RequestBodies(s.sent) != []
  {
    hide RequestBodies, SlotsTyped, PhaseInv, TraceInv, Due, PhaseOf;
    BatchNonEmpty(env, s.sent, s.running, n);
  }

  lemma BatchNonEmpty(env: Env, t: seq<Reply>, running: bool, n: nat)
    requires env.Contract() && TraceInv(env, t, running, n)
    ensures running <==> RequestBodies(t) != []
  {
    hide InOrder, RequestBodies;
    if running {
      var doc :| BatchFor(env, doc, RequestBodies(t));
      SplitTyped(env, env.encode(doc).value, true);
    }
  }

  function Total(cs: seq<Conn>, x: string): int
  {
    if cs == [] then 0 else Level(Made(cs[0]), x) + Total(cs[1..], x)
  }

  lemma {:induction false} TotalPut(cs: seq<Conn>, i: nat, c: Conn, x: string)
    requires i < |cs|
    ensures Total(cs[i := c], x) == Total(cs, x) - Level(Made(cs[i]), x) + Level(Made(c), x)
    decreases i
  {
    hide Made, Level;
    if i == 0 {
      assert cs[i := c][1..] == cs[1..];
    } else {
      assert cs[i := c][1..] == cs[1..][i - 1 := c];
      TotalPut(cs[1..], i - 1, c, x);
    }
  }

  lemma {:induction false} TotalSnoc(cs: seq<Conn>, c: Conn, x: string)
    ensures Total(cs + [c], x) == Total(cs, x) + Level(Made(c), x)
    decreases |cs|
  {
    hide Made, Level;
    if cs == [] {
      assert (cs + [c])[1..] == [];
    } else {
      assert (cs + [c])[1..] == cs[1..] + [c];
      TotalSnoc(cs[1..], c, x);
    }
  }

  ghost predicate ServerInv(v: Server)
  {
    && (forall i :: 0 <= i < |v.conns| ==> ConnInv(v.conns[i]))
    && (forall x :: Level(v.gauge, x) == Total(v.conns, x))
  }

  /** Replacing a connection along with the moves it has made in between. */
  lemma PutInv(v: Server, i: nat, c: Conn, moves: seq<GaugeOp>)
    requires ServerInv(v) && i < |v.conns| && ConnInv(c) && Made(c) == Made(v.conns[i]) + moves
    ensures ServerInv(Server(v.conns[i := c], v.gauge + moves))
  {
    hide ConnInv, Made;
    forall x ensures Level(v.gauge + moves, x) == Total(v.conns[i := c], x) {
      LevelAppend(v.gauge, moves, x);
      LevelAppend(Made(v.conns[i]), moves, x);
      TotalPut(v.conns, i, c, x);
    }
  }

  lemma ReactInv(v: Server, e: Event)
    requires ServerInv(v) && (e.Open? ==> e.env.Contract())
    ensures ServerInv(React(v, e))
  {
    hide Turn, Leave, Made, ConnInv;
    match e
    case Open(env) => OpenInv(v, env);
    case Deliver(i, m) =>
      if i < |v.conns| && v.conns[i].live && v.conns[i].pending == [] {
        TurnInv(v.conns[i], m);
        assert v.gauge + [] == v.gauge && Made(v.conns[i]) + [] == Made(v.conns[i]);
        PutInv(v, i, Turn(v.conns[i], m), []);
      }
    case Hangup(i) =>
      if i < |v.conns| && v.conns[i].live && v.conns[i].pending == [] {
        LeaveInv(v.conns[i]);
        assert v.gauge + [] == v.gauge && Made(v.conns[i]) + [] == Made(v.conns[i]);
        PutInv(v, i, Leave(v.conns[i]), []);
      }
    case Move(i) =>
      if i < |v.conns| && v.conns[i].pending != [] {
        MoveInv(v.conns[i]);
        PutInv(v, i, v.conns[i].(pending := v.conns[i].pending[1..]), [v.conns[i].pending[0]]);
      }
  }

  lemma OpenInv(v: Server, env: Env)
    requires ServerInv(v) && env.Contract()
    ensures ServerInv(React(v, Open(env)))
  {
    hide ConnInv;
    var c := Conn(env, FRESH, true, 0, 0, []);
    FreshInv(env);
    assert Made(c) == [];
    forall x ensures Level(v.gauge, x) == Total(v.conns + [c], x) { TotalSnoc(v.conns, c, x); }
  }

  /** The invariant holds after any events: turns and single gauge moves of any streams in any order. */
  lemma {:induction false} ExecInv(v: Server, es: seq<Event>)
    requires ServerInv(v) && forall k :: 0 <= k < |es| && es[k].Open? ==> es[k].env.Contract()
    ensures ServerInv(Exec(v, es))
    decreases |es|
  {
    hide ServerInv, React;
    if es == [] {
    } else {
      ReactInv(v, es[0]);
      ExecInv(React(v, es[0]), es[1..]);
    }
  }

  lemma {:induction false} TotalHolders(cs: seq<Conn>, x: string)
    requires forall i :: 0 <= i < |cs| ==> ConnInv(cs[i]) && cs[i].requests <= 1
    ensures Total(cs, x) == Holders(cs, x)
    decreases |cs|
  {
    hide ConnInv, Holds, Level, Made;
    if cs == [] {
    } else {
      MadeLevel(cs[0], x);
      TotalHolders(cs[1..], x);
    }
  }

  lemma {:induction false} HoldersServe(cs: seq<Conn>, x: string)
    requires forall i :: 0 <= i < |cs| ==> ConnInv(cs[i]) && cs[i].requests <= 1 && cs[i].pending == []
    ensures Holders(cs, x) == Serves(cs, x)
    decreases |cs|
  {
    hide ConnInv, Holds, Serving;
    if cs == [] {
    } else {
      HoldsIffServing(cs[0], x);
      HoldersServe(cs[1..], x);
    }
  }

  /**
    For any interleaving of the turns and of the single gauge moves of any number of streams, in which no
    stream completed more than one request body: the gauge of a model is the number of streams that have
    made their increment under it and not yet their decrement, turns under way included.
  */
  lemma GaugeCountsHolders(es: seq<Event>, x: string)
    requires forall k :: 0 <= k < |es| && es[k].Open? ==> es[k].env.Contract()
    requires forall i :: 0 <= i < |Exec(Server([], []), es).conns| ==> Exec(Server([], []), es).conns[i].requests <= 1
    ensures Level(Exec(Server([], []), es).gauge, x) == Holders(Exec(Server([], []), es).conns, x)
  {
    hide ConnInv, Exec;
    assert ServerInv(Server([], []));
    ExecInv(Server([], []), es);
    TotalHolders(Exec(Server([], []), es).conns, x);
  }

  /**
    So whenever no turn is under way, sends having failed or not, the gauge of a model is the number of live
    streams that have sent their request body batch and name that model.
  */
  lemma GaugeCountsServing(es: seq<Event>, x: string)
    requires forall k :: 0 <= k < |es| && es[k].Open? ==> es[k].env.Contract()
    requires var cs := Exec(Server([], []), es).conns;
             forall i :: 0 <= i < |cs| ==> cs[i].requests <= 1 && cs[i].pending == []
    ensures Level(Exec(Server([], []), es).gauge, x) == Serves(Exec(Server([], []), es).conns, x)
  {
    hide ConnInv, Exec;
    assert ServerInv(Server([], []));
    ExecInv(Server([], []), es);
    GaugeCountsHolders(es, x);
    HoldersServe(Exec(Server([], []), es).conns, x);
  }

  lemma {:induction false} NobodyServes(cs: seq<Conn>, x: string)
    requires forall i :: 0 <= i < |cs| ==> !cs[i].live
    ensures Serves(cs, x) == 0
    decreases |cs|
  {
    if cs == [] {
    } else {
      NobodyServes(cs[1..], x);
    }
  }

  /** When all streams have ended and made their last moves the gauge is back where it started. */
  lemma GaugeReturnsToStart(es: seq<Event>, x: string)
    requires forall k :: 0 <= k < |es| && es[k].Open? ==> es[k].env.Contract()
    requires var cs := Exec(Server([], []), es).conns;
             forall i :: 0 <= i < |cs| ==> cs[i].requests <= 1 && !cs[i].live && cs[i].pending == []
    ensures Level(Exec(Server([], []), es).gauge, x) == 0
  {
    hide Exec;
    GaugeCountsServing(es, x);
    NobodyServes(Exec(Server([], []), es).conns, x);
  }
}
