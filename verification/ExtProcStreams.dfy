/**
  Many streams on one server: in every interleaving of their turns and of their moves on the shared gauge, each
  stream goes through exactly what its own messages make of it alone.
*/
module ExtProcStreams {
  import opened ExtProc
  import opened ExtProcGauge

  // ---------- What happens to one connection ----------

  predicate Takes(v: Server, i: nat) { i < |v.conns| && v.conns[i].live && v.conns[i].pending == [] }

  /** The messages connection i takes in: those delivered while it is up and between turns. */
  function Messages(v: Server, es: seq<Event>, i: nat): seq<Req>
    decreases |es|
  {
    if es == [] then []
    else
      (if es[0].Deliver? && es[0].i == i && Takes(v, i) then [es[0].m] else []) + Messages(React(v, es[0]), es[1..], i)
  }

  /** Does Envoy hang up on it between turns? */
  predicate HungUp(v: Server, es: seq<Event>, i: nat)
    decreases |es|
  {
    es != [] && ((es[0] == Hangup(i) && Takes(v, i)) || HungUp(React(v, es[0]), es[1..], i))
  }

  /** How many of its gauge moves it makes. */
  function MovesMade(v: Server, es: seq<Event>, i: nat): nat
    decreases |es|
  {
    if es == [] then 0
    else
      (if es[0] == Move(i) && i < |v.conns| && v.conns[i].pending != [] then 1 else 0)
      + MovesMade(React(v, es[0]), es[1..], i)
  }

  /** The moves still to be made are the last ones of the stream. */
  predicate Behind(c: Conn)
  {
    |c.pending| <= |c.st.gauge| && c.pending == c.st.gauge[|c.st.gauge| - |c.pending|..]
  }

  /** An event that is not for connection i, or that it cannot take, leaves it alone. */
  lemma OthersLeave(v: Server, e: Event, i: nat)
    requires i < |v.conns|
    requires e.Deliver? || e.Hangup? ==> e.i != i || !Takes(v, i)
    requires e.Move? ==> e.i != i || v.conns[i].pending == []
    ensures i < |React(v, e).conns| && React(v, e).conns[i] == v.conns[i]
  {
    hide Turn, Leave;
  }

  lemma TurnBehind(c: Conn, m: Req)
    requires c.pending == []
    ensures Behind(Turn(c, m)) && Behind(Leave(c)) && Made(Turn(c, m)) == Made(c) == Made(Leave(c))
  {
    hide Step;
    StepGaugeGrows(c.env, c.st, m);
  }

  /** A connection that is down stays as it is, but for the moves it has still to make. */
  lemma {:induction false} Down(v: Server, es: seq<Event>, i: nat)
    requires i < |v.conns| && !v.conns[i].live && Behind(v.conns[i])
    ensures var d := Exec(v, es);
            && i < |d.conns| && !d.conns[i].live && d.conns[i].st == v.conns[i].st && d.conns[i].env == v.conns[i].env
            && |Made(d.conns[i])| == |Made(v.conns[i])| + MovesMade(v, es, i)
    ensures Messages(v, es, i) == [] && !HungUp(v, es, i)
    decreases |es|
  {
    if es == [] {
    } else {
      hide Turn, Leave;
      var e := es[0];
      if e == Move(i) && v.conns[i].pending != [] {
      } else {
        OthersLeave(v, e, i);
      }
      Down(React(v, e), es[1..], i);
    }
  }

  /** What a connection that is up comes to: the run of its messages, closed if it ended or was hung up on. */
  lemma {:induction false} Alone(v: Server, es: seq<Event>, i: nat)
    requires i < |v.conns| && v.conns[i].live && Behind(v.conns[i])
    ensures i < |Exec(v, es).conns|
    ensures var c, d := v.conns[i], Exec(v, es).conns[i];
            var o := Run(c.env, c.st, Messages(v, es, i));
            && d.env == c.env && (d.live <==> o.exit.None? && !HungUp(v, es, i))
            && d.st == (if d.live then o.st else Teardown(o.st))
            && |Made(d)| == |Made(c)| + MovesMade(v, es, i)
    decreases |es|
  {
    hide Turn, Leave, Step, Made, Behind, Teardown;
    if es == [] {
    } else {
      var e, c, w := es[0], v.conns[i], React(v, es[0]);
      if e.Deliver? && e.i == i && Takes(v, i) {
        DeliverAlone(v, es, i);
        TurnBehind(c, e.m);
        if w.conns[i].live { Alone(w, es[1..], i); } else { Down(w, es[1..], i); }
      } else if e == Hangup(i) && Takes(v, i) {
        TurnBehind(c, Req(map[], RequestTrailers));
        LeaveIs(c);
        Down(w, es[1..], i);
      } else if e == Move(i) && c.pending != [] {
        MoveBehind(c);
        assert Messages(v, es, i) == Messages(w, es[1..], i) && HungUp(v, es, i) == HungUp(w, es[1..], i);
        Alone(w, es[1..], i);
      } else {
        OthersLeave(v, e, i);
        assert Messages(v, es, i) == Messages(w, es[1..], i) && HungUp(v, es, i) == HungUp(w, es[1..], i);
        Alone(w, es[1..], i);
      }
    }
  }

  lemma MoveBehind(c: Conn)
    requires Behind(c) && c.pending != []
    ensures Behind(c.(pending := c.pending[1..])) && |Made(c.(pending := c.pending[1..]))| == |Made(c)| + 1
  {
  }

  lemma LeaveIs(c: Conn)
    ensures Leave(c).st == Teardown(c.st) && !Leave(c).live && Leave(c).env == c.env
  {
  }

  lemma DeliverAlone(v: Server, es: seq<Event>, i: nat)
    requires es != [] && es[0].Deliver? && es[0].i == i && Takes(v, i)
    ensures var c, m := v.conns[i], es[0].m;
            var w, o := React(v, es[0]), Step(c.env, c.st, m);
            && |w.conns| == |v.conns| && w.conns[i] == Turn(c, m) && w.conns[i].env == c.env
            && w.conns[i].live == o.exit.None? && w.conns[i].st == (if o.exit.None? then o.st else Teardown(o.st))
            && Messages(v, es, i) == [m] + Messages(w, es[1..], i)
            && Run(c.env, c.st, Messages(v, es, i))
               == if o.exit.Some? then o else Run(c.env, o.st, Messages(w, es[1..], i))
  {
    hide Step, Teardown;
    var rest := Messages(React(v, es[0]), es[1..], i);
    assert ([es[0].m] + rest)[0] == es[0].m && ([es[0].m] + rest)[1..] == rest;
  }

  // ---------- From the opening of a stream ----------

  lemma {:induction false} ExecSplit(v: Server, es: seq<Event>, fs: seq<Event>)
    ensures Exec(v, es + fs) == Exec(Exec(v, es), fs)
    decreases |es|
  {
    hide React;
    if es == [] {
      assert es + fs == fs;
    } else {
      assert (es + fs)[0] == es[0] && (es + fs)[1..] == es[1..] + fs;
      ExecSplit(React(v, es[0]), es[1..], fs);
    }
  }

  /**
    Every stream ever opened, whatever the others do in between: it is up exactly if none of its messages ended it
    and Envoy did not hang up, it is in the state its messages lead to on a stream of its own, and it has made as
    many moves on the gauge as it was given turns to make.
  */
  lemma {:induction false} EachStreamAlone(v: Server, es: seq<Event>, p: nat)
    requires p < |es| && es[p].Open?
    ensures var w := Exec(v, es[..p + 1]);
            var i, later := |w.conns| - 1, es[p + 1..];
            && |w.conns| == |Exec(v, es[..p]).conns| + 1 && i < |Exec(v, es).conns|
            && var d, o := Exec(v, es).conns[i], Run(es[p].env, FRESH, Messages(w, later, i));
               && d.env == es[p].env && (d.live <==> o.exit.None? && !HungUp(w, later, i))
               && d.st == (if d.live then o.st else Teardown(o.st))
               && |Made(d)| == MovesMade(w, later, i)
  {
    hide Run, Messages, HungUp, MovesMade;
    var before := Exec(v, es[..p]);
    var w := before.(conns := before.conns + [Conn(es[p].env, FRESH, true, 0, 0, [])]);
    OneEvent(v, es, p);
    assert es == es[..p + 1] + es[p + 1..];
    ExecSplit(v, es[..p + 1], es[p + 1..]);
    Alone(w, es[p + 1..], |w.conns| - 1);
  }

  lemma OneEvent(v: Server, es: seq<Event>, p: nat)
    requires p < |es|
    ensures Exec(v, es[..p + 1]) == React(Exec(v, es[..p]), es[p])
  {
    hide React;
    assert es[..p + 1] == es[..p] + [es[p]];
    ExecSplit(v, es[..p], [es[p]]);
    var x := Exec(v, es[..p]);
    assert [es[p]][1..] == [];
    assert Exec(x, [es[p]]) == Exec(React(x, es[p]), []);
  }
}
