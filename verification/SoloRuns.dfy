/**
  One reconciler's calls with none of the other's in between: whatever calls fail, they end where the series of
  steps ends that the reconciler's methods are proved against. And a schedule that brings both to the Service
  they may share.
*/
module SoloRuns {
  import opened Basics
  import opened Cluster
  import opened TwoControllers
  import SI = SchedulerInstall
  import SC = SchedulerInstallConvergence
  import SD = SimulatorDeployment
  import SV = SimulatorDeploymentConvergence
  import DR = SimulatorDeploymentReferences

  // ---------- The simulator, undisturbed ----------

  /** A reconcile up to its n-th step with no failure and nothing in between. */
  function SimulatorUndisturbed(n: nat): seq<Event>
  {
    if n == 0 then [] else SimulatorUndisturbed(n - 1) + [SimulatorRead] + [SimulatorWrite(true, true)]
  }

  lemma SimulatorReadThenWrite(t: Setting, s: World)
    requires s.simulator.pc < |SD.Ops(t.simulator)|
    ensures Step(t, Step(t, s, SimulatorRead), SimulatorWrite(true, true))
         == s.(objs := SD.ApplyOp(t.alloc, SD.Ops(t.simulator)[s.simulator.pc], s.objs),
               simulator := Program(s.simulator.pc + 1, Unread))
  {
    hide Plan, SD.Ops, Stored;
    var n := s.simulator.pc;
    var r := Step(t, s, SimulatorRead);
    assert r == s.(simulator := Program(n, Look(s.objs, SD.Ops(t.simulator)[n].key)));
  }

  lemma {:induction false} SimulatorUndisturbedRun(t: Setting, s: World, n: nat)
    requires s.simulator == START && n <= |SD.Ops(t.simulator)|
    ensures Run(t, s, SimulatorUndisturbed(n))
         == s.(objs := SD.AfterOps(t.alloc, SD.Ops(t.simulator)[..n], s.objs), simulator := Program(n, Unread))
  {
    hide Step, SD.Ops, SD.AfterOps, SD.ApplyOp, Run;
    var ops := SD.Ops(t.simulator);
    if n == 0 {
      NothingRun(t, s);
      assert ops[..0] == [];
      NoOps(t.alloc, s.objs);
    } else {
      SimulatorUndisturbedRun(t, s, n - 1);
      LastOp(t.alloc, ops, n - 1, s.objs);
      var es := SimulatorUndisturbed(n - 1);
      RunTwo(t, s, es, SimulatorRead, SimulatorWrite(true, true));
      SimulatorReadThenWrite(t, Run(t, s, es));
    }
  }

  lemma NothingRun(t: Setting, s: World)
    ensures Run(t, s, []) == s
  {
  }

  lemma NoOps(alloc: Key -> string, c: Objects)
    ensures SD.AfterOps(alloc, [], c) == c
  {
  }

  lemma LastOp(alloc: Key -> string, ops: seq<SD.Op>, n: nat, c: Objects)
    requires n < |ops|
    ensures SD.AfterOps(alloc, ops[..n + 1], c) == SD.ApplyOp(alloc, ops[n], SD.AfterOps(alloc, ops[..n], c))
  {
    hide SD.ApplyOp;
    assert ops[..n + 1][..n] == ops[..n] && ops[..n + 1][n] == ops[n];
  }

  // ---------- The simulator, with failing calls ----------

  predicate SimulatorOnly(es: seq<Event>)
  {
    forall i :: 0 <= i < |es| ==> es[i].SimulatorStart? || es[i].SimulatorRead? || es[i].SimulatorWrite?
  }

  /** The cluster is where the first steps lead from a cluster on the way from c; what was read still holds. */
  ghost predicate SimulatorAt(t: Setting, c: Objects, s: World)
  {
    var ops, p := SD.Ops(t.simulator), s.simulator;
    && p.pc <= |ops| && (p.snap.Unread? || (p.pc < |ops| && p.snap == Look(s.objs, ops[p.pc].key)))
    && exists b :: SD.AfterOps(t.alloc, ops, b) == SD.AfterOps(t.alloc, ops, c)
                   && s.objs == SD.AfterOps(t.alloc, ops[..p.pc], b)
  }

  /** The program may start over from any state it has led to. */
  lemma StartsOver(t: Setting, c: Objects, b: Objects, k: nat, s: World)
    requires k <= |SD.Ops(t.simulator)| && s.simulator == START
    requires SD.AfterOps(t.alloc, SD.Ops(t.simulator), b) == SD.AfterOps(t.alloc, SD.Ops(t.simulator), c)
    requires s.objs == SD.AfterOps(t.alloc, SD.Ops(t.simulator)[..k], b)
    ensures SimulatorAt(t, c, s)
  {
    hide SD.Ops, SD.AfterOps;
    var ops := SD.Ops(t.simulator);
    SV.OpsNoRivals(t.simulator);
    SV.RerunAbsorbs(t.alloc, ops, k, b);
    NoOps(t.alloc, s.objs);
    assert ops[..0] == [];
  }

  lemma SimulatorStepAlone(t: Setting, c: Objects, s: World, e: Event)
    requires SimulatorAt(t, c, s) && SimulatorOnly([e])
    ensures SimulatorAt(t, c, Step(t, s, e))
  {
    hide SD.Ops, SD.AfterOps, Plan, Stored, SimulatorAt, Look;
    var ops, n := SD.Ops(t.simulator), s.simulator.pc;
    assert [e][0] == e;
    var b := AtMeans(t, c, s);
    var d := Step(t, s, e);
    match e
    case SimulatorStart => StartsOver(t, c, b, n, d);
    case SimulatorRead => if n < |ops| { AtBuilt(t, c, d, b); }
    case SimulatorWrite(landed, answered) =>
      if n < |ops| && !s.simulator.snap.Unread? {
        LastOp(t.alloc, ops, n, b);
        Written(t, s, landed, answered);
        if d.simulator == START {
          if d.objs == s.objs { StartsOver(t, c, b, n, d); } else { StartsOver(t, c, b, n + 1, d); }
        } else {
          AtBuilt(t, c, d, b);
        }
      }
    case _ =>
  }

  /** A write on what was read applies the step, or nothing, and goes on exactly if it knows that it did. */
  lemma Written(t: Setting, s: World, landed: bool, answered: bool)
    requires s.simulator.pc < |SD.Ops(t.simulator)|
    requires s.simulator.snap == Look(s.objs, SD.Ops(t.simulator)[s.simulator.pc].key)
    ensures var d, op := Step(t, s, SimulatorWrite(landed, answered)), SD.Ops(t.simulator)[s.simulator.pc];
            && d.install == s.install && d.seen == s.seen
            && (d.objs == s.objs || d.objs == SD.ApplyOp(t.alloc, op, s.objs))
            && (d.simulator == START || (d.simulator == Program(s.simulator.pc + 1, Unread)
                                         && d.objs == SD.ApplyOp(t.alloc, op, s.objs)))
            && (d.simulator == Program(s.simulator.pc + 1, Unread) <==>
                SD.ApplyOp(t.alloc, op, s.objs) == s.objs || (landed && answered))
            && (landed ==> d.objs == SD.ApplyOp(t.alloc, op, s.objs))
  {
    hide Plan, SD.Ops, Stored;
    var op := SD.Ops(t.simulator)[s.simulator.pc];
    SV.MetIff(t.alloc, op, s.objs);
  }

  lemma AtMeans(t: Setting, c: Objects, s: World) returns (b: Objects)
    requires SimulatorAt(t, c, s)
    ensures s.simulator.pc <= |SD.Ops(t.simulator)|
    ensures s.simulator.snap.Unread?
            || (s.simulator.pc < |SD.Ops(t.simulator)|
                && s.simulator.snap == Look(s.objs, SD.Ops(t.simulator)[s.simulator.pc].key))
    ensures SD.AfterOps(t.alloc, SD.Ops(t.simulator), b) == SD.AfterOps(t.alloc, SD.Ops(t.simulator), c)
    ensures s.objs == SD.AfterOps(t.alloc, SD.Ops(t.simulator)[..s.simulator.pc], b)
  {
    hide SD.Ops, SD.AfterOps;
    var ops := SD.Ops(t.simulator);
    b :| SD.AfterOps(t.alloc, ops, b) == SD.AfterOps(t.alloc, ops, c)
         && s.objs == SD.AfterOps(t.alloc, ops[..s.simulator.pc], b);
  }

  lemma AtBuilt(t: Setting, c: Objects, s: World, b: Objects)
    requires s.simulator.pc <= |SD.Ops(t.simulator)|
    requires s.simulator.snap.Unread?
             || (s.simulator.pc < |SD.Ops(t.simulator)|
                 && s.simulator.snap == Look(s.objs, SD.Ops(t.simulator)[s.simulator.pc].key))
    requires SD.AfterOps(t.alloc, SD.Ops(t.simulator), b) == SD.AfterOps(t.alloc, SD.Ops(t.simulator), c)
    requires s.objs == SD.AfterOps(t.alloc, SD.Ops(t.simulator)[..s.simulator.pc], b)
    ensures SimulatorAt(t, c, s)
  {
    hide SD.Ops, SD.AfterOps;
  }

  lemma {:induction false} SimulatorRunAlone(t: Setting, s: World, es: seq<Event>)
    requires s.simulator == START && SimulatorOnly(es)
    ensures SimulatorAt(t, s.objs, Run(t, s, es))
    decreases |es|
  {
    hide Step, SimulatorAt, SD.Ops, SD.AfterOps;
    if es == [] {
      NothingRun(t, s);
      assert SD.Ops(t.simulator)[..0] == [];
      NoOps(t.alloc, s.objs);
      AtBuilt(t, s.objs, s, s.objs);
    } else {
      var n := |es| - 1;
      assert [es[n]][0] == es[n];
      SimulatorRunAlone(t, s, es[..n]);
      SimulatorStepAlone(t, s.objs, Run(t, s, es[..n]), es[n]);
    }
  }

  /**
    Alone, with any calls lost, refused or carried out without an answer and any restarts: once the program is
    through, the cluster is what one undisturbed run makes of the first one, and from every point before it a
    full run still leads there.
  */
  lemma SimulatorAlone(t: Setting, s: World, es: seq<Event>)
    requires s.simulator == START && SimulatorOnly(es)
    ensures var d, ops := Run(t, s, es), SD.Ops(t.simulator);
            && SD.AfterOps(t.alloc, ops, d.objs) == SD.AfterOps(t.alloc, ops, s.objs)
            && (d.simulator.pc == |ops| ==> d.objs == SD.AfterOps(t.alloc, ops, s.objs))
  {
    hide Run, SD.Ops, SD.AfterOps, SimulatorAt;
    SimulatorRunAlone(t, s, es);
    var d, ops := Run(t, s, es), SD.Ops(t.simulator);
    var b := AtMeans(t, s.objs, d);
    SV.OpsNoRivals(t.simulator);
    SV.RerunAbsorbs(t.alloc, ops, d.simulator.pc, b);
    assert ops[..|ops|] == ops;
  }

  // ---------- The install, with failing calls ----------

  /** No deletion: the plan may end by deleting the EnvoyFilter, after all writes. */
  predicate InstallOnly(es: seq<Event>, seen: SI.Seen)
  {
    forall i :: 0 <= i < |es| ==> es[i] == InstallStart(seen) || es[i].InstallRead? || es[i].InstallWrite?
  }

  ghost predicate InstallAt(t: Setting, c: Objects, s: World)
  {
    var ws, p := Plan(t, s.seen).writes, s.install;
    && p.pc <= |ws| && (p.snap.Unread? || (p.pc < |ws| && p.snap == Look(s.objs, ws[p.pc].key)))
    && exists b :: After(t.alloc, ws, b) == After(t.alloc, ws, c) && s.objs == After(t.alloc, ws[..p.pc], b)
  }

  lemma InstallAtMeans(t: Setting, c: Objects, s: World) returns (b: Objects)
    requires InstallAt(t, c, s)
    ensures s.install.pc <= |Plan(t, s.seen).writes|
    ensures s.install.snap.Unread?
            || (s.install.pc < |Plan(t, s.seen).writes|
                && s.install.snap == Look(s.objs, Plan(t, s.seen).writes[s.install.pc].key))
    ensures After(t.alloc, Plan(t, s.seen).writes, b) == After(t.alloc, Plan(t, s.seen).writes, c)
    ensures s.objs == After(t.alloc, Plan(t, s.seen).writes[..s.install.pc], b)
  {
    hide Plan, After;
    var ws := Plan(t, s.seen).writes;
    b :| After(t.alloc, ws, b) == After(t.alloc, ws, c) && s.objs == After(t.alloc, ws[..s.install.pc], b);
  }

  lemma InstallAtBuilt(t: Setting, c: Objects, s: World, b: Objects)
    requires s.install.pc <= |Plan(t, s.seen).writes|
    requires s.install.snap.Unread?
             || (s.install.pc < |Plan(t, s.seen).writes|
                 && s.install.snap == Look(s.objs, Plan(t, s.seen).writes[s.install.pc].key))
    requires After(t.alloc, Plan(t, s.seen).writes, b) == After(t.alloc, Plan(t, s.seen).writes, c)
    requires s.objs == After(t.alloc, Plan(t, s.seen).writes[..s.install.pc], b)
    ensures InstallAt(t, c, s)
  {
    hide Plan, After;
  }

  lemma PlanAbsorbs(t: Setting, seen: SI.Seen, k: nat, b: Objects)
    requires k <= |Plan(t, seen).writes|
    ensures var ws := Plan(t, seen).writes; After(t.alloc, ws, After(t.alloc, ws[..k], b)) == After(t.alloc, ws, b)
  {
    hide SI.PlanOf, After, Coherent, SI.Ranked;
    var ws := Plan(t, seen).writes;
    SI.PlanRanked(t.has, t.install, seen);
    SI.RankedCoherent(t.install, ws, 0, 12);
    AfterAbsorbs(t.alloc, ws, k, b);
  }

  lemma InstallStartsOver(t: Setting, c: Objects, b: Objects, k: nat, s: World)
    requires k <= |Plan(t, s.seen).writes| && s.install == START
    requires After(t.alloc, Plan(t, s.seen).writes, b) == After(t.alloc, Plan(t, s.seen).writes, c)
    requires s.objs == After(t.alloc, Plan(t, s.seen).writes[..k], b)
    ensures InstallAt(t, c, s)
  {
    PlanAbsorbs(t, s.seen, k, b);
    hide Plan;
    var ws := Plan(t, s.seen).writes;
    assert ws[..0] == [];
    assert After(t.alloc, ws[..0], s.objs) == s.objs;
  }

  lemma InstallWritten(t: Setting, s: World, landed: bool, answered: bool)
    requires s.install.pc < |Plan(t, s.seen).writes|
    requires s.install.snap == Look(s.objs, Plan(t, s.seen).writes[s.install.pc].key)
    ensures var d, w := Step(t, s, InstallWrite(landed, answered)), Plan(t, s.seen).writes[s.install.pc];
            && d.simulator == s.simulator && d.seen == s.seen
            && (d.objs == s.objs || d.objs == Apply(t.alloc, w, s.objs))
            && (d.install == START || (d.install == Program(s.install.pc + 1, Unread)
                                       && d.objs == Apply(t.alloc, w, s.objs)))
            && (d.install == Program(s.install.pc + 1, Unread) <==>
                Claimable(w, s.objs) && (Apply(t.alloc, w, s.objs) == s.objs || (landed && answered)))
            && (landed && Claimable(w, s.objs) ==> d.objs == Apply(t.alloc, w, s.objs))
  {
    hide Plan, Mutate, Stored;
    var w := Plan(t, s.seen).writes[s.install.pc];
    SC.SettledIff(t.alloc, w, s.objs);
  }

  lemma WriteLast(alloc: Key -> string, ws: seq<Write>, n: nat, c: Objects)
    requires n < |ws|
    ensures After(alloc, ws[..n + 1], c) == Apply(alloc, ws[n], After(alloc, ws[..n], c))
  {
    hide Apply;
    assert ws[..n + 1][..n] == ws[..n] && ws[..n + 1][n] == ws[n];
  }

  lemma InstallStepAlone(t: Setting, c: Objects, s: World, e: Event)
    requires InstallAt(t, c, s) && InstallOnly([e], s.seen)
    ensures InstallAt(t, c, Step(t, s, e)) && Step(t, s, e).seen == s.seen
  {
    hide SD.Ops, After, Plan, Mutate, Stored, InstallAt, Look;
    var ws, n := Plan(t, s.seen).writes, s.install.pc;
    assert [e][0] == e;
    var b := InstallAtMeans(t, c, s);
    var d := Step(t, s, e);
    match e
    case InstallStart(seen) => InstallStartsOver(t, c, b, n, d);
    case InstallRead => if n < |ws| { InstallAtBuilt(t, c, d, b); }
    case InstallWrite(landed, answered) =>
      if n < |ws| && !s.install.snap.Unread? {
        WriteLast(t.alloc, ws, n, b);
        InstallWritten(t, s, landed, answered);
        if d.install == START {
          if d.objs == s.objs { InstallStartsOver(t, c, b, n, d); } else { InstallStartsOver(t, c, b, n + 1, d); }
        } else {
          InstallAtBuilt(t, c, d, b);
        }
      }
    case _ =>
  }

  lemma {:induction false} InstallRunAlone(t: Setting, s: World, es: seq<Event>)
    requires s.install == START && InstallOnly(es, s.seen)
    ensures InstallAt(t, s.objs, Run(t, s, es)) && Run(t, s, es).seen == s.seen
    decreases |es|
  {
    hide Step, InstallAt, Plan, After;
    if es == [] {
      NothingRun(t, s);
      assert Plan(t, s.seen).writes[..0] == [];
      assert After(t.alloc, [], s.objs) == s.objs by { NoWrites(t.alloc, s.objs); }
      InstallAtBuilt(t, s.objs, s, s.objs);
    } else {
      var n := |es| - 1;
      assert [es[n]][0] == es[n];
      InstallRunAlone(t, s, es[..n]);
      InstallStepAlone(t, s.objs, Run(t, s, es[..n]), es[n]);
    }
  }

  lemma NoWrites(alloc: Key -> string, c: Objects)
    ensures After(alloc, [], c) == c
  {
  }

  /** The same of the install's writes, some of which may be refused for good by a foreign controller. */
  lemma InstallAlone(t: Setting, s: World, es: seq<Event>)
    requires s.install == START && InstallOnly(es, s.seen)
    ensures var d, ws := Run(t, s, es), Plan(t, s.seen).writes;
            && After(t.alloc, ws, d.objs) == After(t.alloc, ws, s.objs)
            && (d.install.pc == |ws| ==> d.objs == After(t.alloc, ws, s.objs))
  {
    hide Run, Plan, After, InstallAt;
    InstallRunAlone(t, s, es);
    var d, ws := Run(t, s, es), Plan(t, s.seen).writes;
    var b := InstallAtMeans(t, s.objs, d);
    PlanAbsorbs(t, s.seen, d.install.pc, b);
    assert ws[..|ws|] == ws;
  }

  /**
    An undisturbed reconcile whose plan ends by deleting the EnvoyFilter finishes the plan: the writes are made and
    the filter is gone.
  */
  lemma UndisturbedDelete(t: Setting, s: World)
    requires s.install == START && Plan(t, s.seen).end.Drop?
    ensures var p := Plan(t, s.seen);
            var d := Run(t, s, Undisturbed(|p.writes|) + [InstallDelete]);
            d.objs == SI.Finish(t.alloc, p, s.objs) && p.end.key !in d.objs
  {
    hide Step, After, Run, SI.PlanOf, SI.Rank;
    var ws, n := Plan(t, s.seen).writes, |Plan(t, s.seen).writes|;
    SI.PlanRanked(t.has, t.install, s.seen);
    assert ws[..n] == ws;
    UndisturbedRun(t, s, n);
    RunSplit(t, s, Undisturbed(n), [InstallDelete]);
    DeleteStep(t, Run(t, s, Undisturbed(n)));
  }

  lemma DeleteStep(t: Setting, s: World)
    requires s.install.pc == |Plan(t, s.seen).writes| && Plan(t, s.seen).end.Drop?
    ensures Run(t, s, [InstallDelete]) == s.(objs := s.objs - {Plan(t, s.seen).end.key})
  {
    hide Plan;
    assert [InstallDelete][..0] == [];
    NothingRun(t, s);
  }

  // ---------- The Service both mean ----------

  /**
    With the names left open, in one namespace, from a cluster without the Service: an undisturbed simulator
    reconcile creates it with the simulator's selector, so that it is not the install's.
  */
  lemma SimulatorTakesName(t: Setting, s: World, i: SI.Spec, l: SD.Legacy) returns (es: seq<Event>)
    requires t.install.spec == SI.Defaulted(t.install.ns, i) && i.proxy.name == "" && i.proxy.selector == map[]
    requires t.simulator.spec.legacy == SD.DefaultLegacy(l) && l.service.name == ""
    requires t.simulator.ns == t.install.spec.simNs && SD.IsLegacy(t.simulator.spec)
    requires SI.ProxyKey(t.install) !in s.objs
    ensures SimulatorOnly(es)
    ensures var d, k := Run(t, s, es), SI.ProxyKey(t.install);
            && k in d.objs && d.objs[k].content.Endpoint?
            && d.objs[k].content.selector ==
                 map["llm-d.ai/role" := "decode", "app.kubernetes.io/name" := t.simulator.name]
            && !ProxyHolds(t, d.objs)
  {
    var m, n := t.simulator, |SD.Ops(t.simulator)|;
    DefaultsMeet(t.install, i, m, l);
    NameFree(m, l);
    es := [SimulatorStart] + SimulatorUndisturbed(n);
    OnlySimulator(n);
    hide Run, SD.Ops, SD.AfterOps, SI.Defaulted, SI.ProxyContent, Step, SD.OpEdits;
    RunSplit(t, s, [SimulatorStart], SimulatorUndisturbed(n));
    SimulatorStarts(t, s);
    SimulatorUndisturbedRun(t, s.(simulator := START), n);
    var ops := SD.Ops(m);
    assert ops[..n] == ops;
    var a := Attempt(s.objs, SD.AfterOps(t.alloc, ops, s.objs), true, SD.OpEdits(t.alloc, ops, s.objs));
    DR.LegacyServiceCreated(t.alloc, m, a);
  }

  lemma NameFree(m: SD.Simulator, l: SD.Legacy)
    requires m.spec.legacy == SD.DefaultLegacy(l) && l.service.name == ""
    ensures !DR.NameTaken(m)
  {
    DR.SupportNamedIn(m);
    hide SD.SupportOps;
    assert |m.spec.legacy.service.name| == 31;
    assert |SD.ISTIO_GATEWAY| == 33 && |SD.STANDARD_GATEWAY| == 27 && |SD.EPP_NAME| == 12;
  }

  lemma OnlySimulator(n: nat)
    ensures SimulatorOnly([SimulatorStart] + SimulatorUndisturbed(n))
  {
    if n > 0 {
      OnlySimulator(n - 1);
      var es := [SimulatorStart] + SimulatorUndisturbed(n - 1);
      assert [SimulatorStart] + SimulatorUndisturbed(n) == es + [SimulatorRead] + [SimulatorWrite(true, true)];
    }
  }

  lemma SimulatorStarts(t: Setting, s: World)
    ensures Run(t, s, [SimulatorStart]) == s.(simulator := START)
  {
    hide Plan, SD.Ops;
    assert [SimulatorStart][..0] == [];
    NothingRun(t, s);
  }

  /**
    An undisturbed reconcile of a sound install makes the Service the install's again, whatever it was before;
    from then on it stays that under every schedule.
  */
  lemma InstallTakesOver(t: Setting, s: World, later: seq<Event>) returns (es: seq<Event>)
    requires !Overwrites(t.install) && !SI.PlanAt(t.alloc, t.has, t.install, s.objs).end.Broken?
    ensures ProxyHolds(t, Run(t, s, es).objs) && ProxyHolds(t, Run(t, s, es + later).objs)
  {
    var seen := SI.See(t.alloc, t.install, s.objs);
    var ws := Plan(t, seen).writes;
    SC.PlanHasServices(t.alloc, t.has, t.install, s.objs);
    SI.PlanRanked(t.has, t.install, seen);
    SC.ServiceKeys(t.install);
    hide SI.PlanOf, SI.ProxyWrite, SI.Rank, SI.Ranked, SI.See, SI.EppServiceWrite;
    var n :| 0 <= n < |ws| && ws[n] == SI.ProxyWrite(t.install);
    Claimless(t.install, ws, n);
    hide Step, Run, After, Apply, ProxyHolds, Overwrites;
    es := [InstallStart(seen)] + Undisturbed(n + 1);
    StartRun(t, s, seen);
    RunSplit(t, s, [InstallStart(seen)], Undisturbed(n + 1));
    UndisturbedRun(t, s.(seen := seen, install := START), n + 1);
    WriteLast(t.alloc, ws, n, s.objs);
    ProxyWritten(t, After(t.alloc, ws[..n], s.objs));
    RunSplit(t, s, es, later);
    RunStable(t, Run(t, s, es), later);
  }

  lemma ProxyWritten(t: Setting, c: Objects)
    ensures ProxyHolds(t, Apply(t.alloc, SI.ProxyWrite(t.install), c))
  {
    hide SI.ProxyContent, SI.CrossLabels;
  }
}
