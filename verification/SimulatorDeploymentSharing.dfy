/**
  Two SimulatorDeployments in one namespace. The names of the stage Deployments do not contain the resource's
  name, so both reconcilers' runs may scale one Deployment.
*/
module SimulatorDeploymentSharing {
  import opened Basics
  import opened Cluster
  import opened SimulatorDeployment
  import opened SimulatorDeploymentConvergence

  // ---------- The runs ----------

  /** No two steps scale one Deployment to different numbers of replicas. */
  ghost predicate Compatible(xs: seq<Op>, ys: seq<Op>)
  {
    forall j, k :: 0 <= j < |xs| && 0 <= k < |ys| && xs[j].scale && ys[k].scale && xs[j].key == ys[k].key ==>
      xs[j].obj.replicas == ys[k].obj.replicas
  }

  /** A run that scales to nothing else keeps what was met. */
  lemma {:induction false} RunKeepsMet(alloc: Key -> string, op: Op, ops: seq<Op>, d: Objects)
    requires Met(op, d) && Compatible([op], ops)
    ensures Met(op, AfterOps(alloc, ops, d))
    decreases |ops|
  {
    if ops == [] {
    } else {
      var n := |ops| - 1;
      assert [op][0] == op && Compatible([op], ops[..n]);
      RunKeepsMet(alloc, op, ops[..n], d);
    }
  }

  lemma AllMet(alloc: Key -> string, m: Simulator, c: Objects)
    ensures forall j :: 0 <= j < |Ops(m)| ==> Met(Ops(m)[j], AfterOps(alloc, Ops(m), c))
  {
    OpsNoRivals(m);
    hide Ops, Met, AfterOps, NoRivals;
    forall j | 0 <= j < |Ops(m)| ensures Met(Ops(m)[j], AfterOps(alloc, Ops(m), c)) {
      RunMeets(alloc, Ops(m), c, j);
    }
  }

  /** Steps of both runs met in one cluster are compatible. */
  lemma MetTogether(xs: seq<Op>, ys: seq<Op>, d: Objects)
    requires forall j :: 0 <= j < |xs| ==> Met(xs[j], d)
    requires forall k :: 0 <= k < |ys| ==> Met(ys[k], d)
    ensures Compatible(xs, ys)
  {
    forall j, k | 0 <= j < |xs| && 0 <= k < |ys| && xs[j].scale && ys[k].scale && xs[j].key == ys[k].key
      ensures xs[j].obj.replicas == ys[k].obj.replicas
    {
      assert Met(xs[j], d) && Met(ys[k], d);
    }
  }

  lemma RunsSettleIff(alloc: Key -> string, m: Simulator, o: Simulator, c: Objects)
    ensures OpEdits(alloc, Ops(m), AfterOps(alloc, Ops(o), AfterOps(alloc, Ops(m), c))) == 0
            <==> Compatible(Ops(m), Ops(o))
  {
    hide Ops, Met, AfterOps, OpEdits, Compatible;
    var b := AfterOps(alloc, Ops(m), c);
    var d := AfterOps(alloc, Ops(o), b);
    AllMet(alloc, m, c);
    AllMet(alloc, o, b);
    SilentIffMet(alloc, Ops(m), d);
    if Compatible(Ops(m), Ops(o)) {
      forall j | 0 <= j < |Ops(m)| ensures Met(Ops(m)[j], d) {
        CompatibleOne(Ops(m), Ops(o), j);
        RunKeepsMet(alloc, Ops(m)[j], Ops(o), b);
      }
    } else if OpEdits(alloc, Ops(m), d) == 0 {
      MetTogether(Ops(m), Ops(o), d);
    }
  }

  lemma CompatibleOne(xs: seq<Op>, ys: seq<Op>, j: nat)
    requires Compatible(xs, ys) && j < |xs|
    ensures Compatible([xs[j]], ys)
  {
  }

  // ---------- The replicas asked for ----------

  function StageReplicas(c: Option<StageSpec>): Option<int>
  {
    if HasStage(c) then Some(OrNumber(c.value.pod.replicas, 2)) else None
  }

  function LegacyReplicas(m: Simulator): Option<int>
  {
    if IsLegacy(m.spec) then Some(m.spec.legacy.pod.replicas) else None
  }

  function StageTarget(stage: string, c: Option<StageSpec>): map<string, int>
  {
    if HasStage(c) then map[StageName(stage) := StageReplicas(c).value] else map[]
  }

  /** The Deployments a run scales, by name, with the replicas asked for. */
  function Targets(m: Simulator): map<string, int>
  {
    if IsLegacy(m.spec) then map[LegacyName(m) := m.spec.legacy.pod.replicas]
    else StageTarget("prefill", m.spec.prefill) + StageTarget("decode", m.spec.decode)
  }

  /** The scaling steps of a list ask for these replicas in the namespace, and each of them is asked for. */
  ghost predicate Asks(ops: seq<Op>, ns: string, t: map<string, int>)
  {
    && (forall j :: 0 <= j < |ops| && ops[j].scale ==>
          ops[j].key.kind.Deployment? && ops[j].key.ns == ns && ops[j].key.name in t
          && ops[j].obj.replicas == Some(t[ops[j].key.name]))
    && (forall n :: n in t ==> exists j :: 0 <= j < |ops| && ops[j].scale && ops[j].key.name == n)
  }

  lemma StageAsks(m: Simulator, stage: string, c: Option<StageSpec>)
    ensures Asks(OptionalStage(m, stage, c), m.ns, StageTarget(stage, c))
  {
    hide StageOps, StageName;
    if HasStage(c) {
      StageKey(m, stage, DefaultStage(c.value, m.spec));
      assert OptionalStage(m, stage, c)[0].key.name == StageName(stage);
    }
  }

  lemma LegacyAsks(m: Simulator)
    ensures Asks(LegacyOps(m, m.spec.legacy), m.ns, map[LegacyName(m) := m.spec.legacy.pod.replicas])
  {
    hide LegacyOps, LegacyName;
    LegacyKey(m, m.spec.legacy);
    assert LegacyOps(m, m.spec.legacy)[0].key.name == LegacyName(m);
  }

  lemma AsksBoth(xs: seq<Op>, ys: seq<Op>, ns: string, s: map<string, int>, t: map<string, int>)
    requires Asks(xs, ns, s) && Asks(ys, ns, t) && s.Keys !! t.Keys
    ensures Asks(xs + ys, ns, s + t)
  {
    forall n | n in s + t ensures exists j :: 0 <= j < |xs + ys| && (xs + ys)[j].scale && (xs + ys)[j].key.name == n {
      if n in s {
        var j :| 0 <= j < |xs| && xs[j].scale && xs[j].key.name == n;
        assert (xs + ys)[j] == xs[j];
      } else {
        var j :| 0 <= j < |ys| && ys[j].scale && ys[j].key.name == n;
        assert (xs + ys)[|xs| + j] == ys[j];
      }
    }
  }

  lemma OpsAsk(m: Simulator)
    ensures Asks(Ops(m), m.ns, Targets(m))
  {
    hide LegacyOps, OptionalStage, SupportOps, ServingOps, StageName, LegacyName, Asks;
    ServingCases(m);
    SupportScalesNothing(m);
    UnscaledAsks(SupportOps(m), m.ns);
    if IsLegacy(m.spec) {
      LegacyAsks(m);
    } else {
      StagesDiffer();
      StageAsks(m, "prefill", m.spec.prefill);
      StageAsks(m, "decode", m.spec.decode);
      AsksBoth(OptionalStage(m, "prefill", m.spec.prefill), OptionalStage(m, "decode", m.spec.decode), m.ns,
               StageTarget("prefill", m.spec.prefill), StageTarget("decode", m.spec.decode));
    }
    AsksBoth(SupportOps(m), ServingOps(m), m.ns, map[], Targets(m));
    assert map[] + Targets(m) == Targets(m);
  }

  lemma UnscaledAsks(ops: seq<Op>, ns: string)
    requires Unscaled(ops)
    ensures Asks(ops, ns, map[])
  {
  }

  ghost predicate SameTargets(s: map<string, int>, t: map<string, int>)
  {
    forall n :: n in s && n in t ==> s[n] == t[n]
  }

  lemma CompatibleMeans(xs: seq<Op>, ys: seq<Op>, m: string, o: string, s: map<string, int>, t: map<string, int>)
    requires Asks(xs, m, s) && Asks(ys, o, t)
    ensures Compatible(xs, ys) <==> (m != o || SameTargets(s, t))
  {
    if Compatible(xs, ys) && m == o {
      forall n | n in s && n in t ensures s[n] == t[n] {
        var j :| 0 <= j < |xs| && xs[j].scale && xs[j].key.name == n;
        var k :| 0 <= k < |ys| && ys[k].scale && ys[k].key.name == n;
        assert xs[j].key == ys[k].key;
      }
    }
  }

  // ---------- In fields of the resources ----------

  predicate SameIfBoth(x: Option<int>, y: Option<int>) { x.Some? && y.Some? ==> x == y }

  /** The single Deployment of a resource of this name is another one's decode Deployment. */
  const STAGE_LIKE := "llm-d-modelservice"

  /** The resources ask for the same replicas wherever they mean the same Deployment. */
  predicate Agree(m: Simulator, o: Simulator)
  {
    && SameIfBoth(StageReplicas(m.spec.prefill), StageReplicas(o.spec.prefill))
    && SameIfBoth(StageReplicas(m.spec.decode), StageReplicas(o.spec.decode))
    && (m.name == o.name ==> SameIfBoth(LegacyReplicas(m), LegacyReplicas(o)))
    && (m.name == STAGE_LIKE ==> SameIfBoth(LegacyReplicas(m), StageReplicas(o.spec.decode)))
    && (o.name == STAGE_LIKE ==> SameIfBoth(StageReplicas(m.spec.decode), LegacyReplicas(o)))
  }

  lemma Names(m: Simulator, o: Simulator)
    ensures LegacyName(m) == LegacyName(o) <==> m.name == o.name
    ensures LegacyName(m) == StageName("decode") <==> m.name == STAGE_LIKE
    ensures LegacyName(m) != StageName("prefill")
  {
    LegacyNameApart(m);
    StageLike();
    Between("ms-sim-", m.name, "-decode");
    Between("ms-sim-", o.name, "-decode");
    Between("ms-sim-", STAGE_LIKE, "-decode");
  }

  lemma Between(before: string, name: string, after: string)
    ensures (before + name + after)[|before|..|before| + |name|] == name
    ensures |before + name + after| == |before| + |name| + |after|
  {
  }

  lemma StageLike()
    ensures StageName("decode") == "ms-sim-" + STAGE_LIKE + "-decode"
  {
    assert "ms-sim-llm-d-modelservice-" == "ms-sim-" + STAGE_LIKE + "-";
    assert "-decode" == "-" + "decode";
  }

  /** The target of a name, if any. */
  function Target(m: Simulator, n: string): Option<int>
  {
    if n in Targets(m) then Some(Targets(m)[n]) else None
  }

  lemma TargetIs(m: Simulator, n: string)
    ensures n == StageName("prefill") ==> Target(m, n) == StageReplicas(m.spec.prefill)
    ensures n == StageName("decode") && !(IsLegacy(m.spec) && m.name == STAGE_LIKE) ==>
              Target(m, n) == StageReplicas(m.spec.decode)
    ensures n == LegacyName(m) && IsLegacy(m.spec) ==> Target(m, n) == LegacyReplicas(m)
    ensures Target(m, n).Some? ==>
              n == StageName("prefill") || n == StageName("decode") || (n == LegacyName(m) && IsLegacy(m.spec))
  {
    hide LegacyName, StageName;
    Names(m, m);
    StagesDiffer();
  }

  lemma AgreeMeans(m: Simulator, o: Simulator)
    ensures SameTargets(Targets(m), Targets(o)) <==> Agree(m, o)
  {
    hide LegacyName, StageName, Targets;
    Names(m, o);
    Names(o, m);
    StagesDiffer();
    TargetIs(m, StageName("prefill"));
    TargetIs(o, StageName("prefill"));
    TargetIs(m, StageName("decode"));
    TargetIs(o, StageName("decode"));
    TargetIs(m, LegacyName(m));
    TargetIs(o, LegacyName(m));
    TargetIs(m, LegacyName(o));
    TargetIs(o, LegacyName(o));
    if Agree(m, o) {
      forall n | n in Targets(m) && n in Targets(o) ensures Targets(m)[n] == Targets(o)[n] {
        TargetIs(m, n);
        TargetIs(o, n);
      }
    }
  }

  /**
    Two resources settle together exactly if they are in different namespaces or ask for the same replicas of
    each Deployment both mean: one further reconcile of the first, after one of each from any cluster, makes no
    call.
  */
  lemma SharingSettlesIff(alloc: Key -> string, m: Simulator, o: Simulator, c: Objects)
    ensures OpEdits(alloc, Ops(m), AfterOps(alloc, Ops(o), AfterOps(alloc, Ops(m), c))) == 0
            <==> (m.ns != o.ns || Agree(m, o))
  {
    hide Ops, OpEdits, AfterOps, Compatible, Asks, SameTargets, Targets, Agree;
    RunsSettleIff(alloc, m, o, c);
    OpsAsk(m);
    OpsAsk(o);
    CompatibleMeans(Ops(m), Ops(o), m.ns, o.ns, Targets(m), Targets(o));
    AgreeMeans(m, o);
  }

  /** Otherwise no cluster whatever leaves both of them without a call to make. */
  lemma NeverBothSilent(alloc: Key -> string, m: Simulator, o: Simulator, d: Objects)
    requires m.ns == o.ns && !Agree(m, o)
    ensures OpEdits(alloc, Ops(m), d) + OpEdits(alloc, Ops(o), d) > 0
  {
    hide Ops, OpEdits, AfterOps, Met, Compatible, Asks, SameTargets, Targets, Agree;
    SilentIffMet(alloc, Ops(m), d);
    SilentIffMet(alloc, Ops(o), d);
    OpsAsk(m);
    OpsAsk(o);
    CompatibleMeans(Ops(m), Ops(o), m.ns, o.ns, Targets(m), Targets(o));
    AgreeMeans(m, o);
    if OpEdits(alloc, Ops(m), d) == 0 && OpEdits(alloc, Ops(o), d) == 0 {
      MetTogether(Ops(m), Ops(o), d);
    }
  }
}
