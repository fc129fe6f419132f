/** Retried reconciles of a SimulatorDeployment: convergence, and what they leave untouched. */
module SimulatorDeploymentConvergence {
  import opened Basics
  import opened Cluster
  import opened SimulatorDeployment
  import opened SimulatorDeploymentController

  /** The object is there and, if the reconciler scales it, has the replicas asked for. */
  predicate Met(op: Op, d: Objects) { op.key in d && (op.scale ==> d[op.key].replicas == op.obj.replicas) }

  /** No Deployment is scaled twice. */
  ghost predicate NoRivals(ops: seq<Op>)
  {
    forall j, k :: 0 <= j < k < |ops| && ops[j].scale && ops[k].scale ==> ops[j].key != ops[k].key
  }

  lemma MetIff(alloc: Key -> string, op: Op, d: Objects)
    ensures Met(op, d) <==> ApplyOp(alloc, op, d) == d
  {
    if op.key !in d {
      assert op.key in ApplyOp(alloc, op, d);
    } else if op.scale && d[op.key].replicas != op.obj.replicas {
      assert ApplyOp(alloc, op, d)[op.key].replicas != d[op.key].replicas;
    }
  }

  /** A step keeps what other steps have met. */
  lemma MetKept(alloc: Key -> string, op: Op, other: Op, d: Objects)
    requires Met(op, d) && (op.scale && other.scale ==> op.key != other.key || op == other)
    ensures Met(op, ApplyOp(alloc, other, d))
  {
  }

  lemma MetNow(alloc: Key -> string, op: Op, d: Objects)
    ensures Met(op, ApplyOp(alloc, op, d))
  {
  }

  /** A whole run meets every step, whatever it started from. */
  lemma {:induction false} RunMeets(alloc: Key -> string, ops: seq<Op>, c: Objects, j: nat)
    requires NoRivals(ops) && j < |ops|
    ensures Met(ops[j], AfterOps(alloc, ops, c))
    decreases |ops|
  {
    hide Met, ApplyOp;
    var n := |ops| - 1;
    var d := AfterOps(alloc, ops[..n], c);
    if j < n {
      assert NoRivals(ops[..n]) && ops[..n][j] == ops[j];
      RunMeets(alloc, ops[..n], c, j);
      MetKept(alloc, ops[j], ops[n], d);
    } else {
      MetNow(alloc, ops[n], d);
    }
  }

  /** A run makes no call exactly when every step is met already; then it changes nothing. */
  lemma {:induction false} SilentIffMet(alloc: Key -> string, ops: seq<Op>, d: Objects)
    ensures OpEdits(alloc, ops, d) == 0 <==> forall j :: 0 <= j < |ops| ==> Met(ops[j], d)
    ensures OpEdits(alloc, ops, d) == 0 ==> AfterOps(alloc, ops, d) == d
    decreases |ops|
  {
    hide Met, ApplyOp;
    if ops == [] {
    } else {
      var n := |ops| - 1;
      SilentIffMet(alloc, ops[..n], d);
      assert forall j :: 0 <= j < n ==> ops[..n][j] == ops[j];
      MetIff(alloc, ops[n], d);
    }
  }

  /** Starting over after any first part of a run ends where the run would have ended. */
  lemma RerunAbsorbs(alloc: Key -> string, ops: seq<Op>, k: nat, c: Objects)
    requires NoRivals(ops) && k <= |ops|
    ensures AfterOps(alloc, ops, AfterOps(alloc, ops[..k], c)) == AfterOps(alloc, ops, c)
  {
    hide AfterOps, Met;
    var d := AfterOps(alloc, ops[..k], c);
    assert NoRivals(ops[..k]);
    forall j | 0 <= j < |ops[..k]| ensures Met(ops[..k][j], d) { RunMeets(alloc, ops[..k], c, j); }
    SilentIffMet(alloc, ops[..k], d);
    assert ops == ops[..k] + ops[k..];
    OpsAppend(alloc, ops[..k], ops[k..], d);
    OpsAppend(alloc, ops[..k], ops[k..], c);
  }

  /** Only Deployments of the simulator are scaled, and no two of them share a name. */
  lemma OpsNoRivals(m: Simulator)
    ensures NoRivals(Ops(m))
    ensures forall j :: 0 <= j < |Ops(m)| && Ops(m)[j].scale ==>
              Ops(m)[j].key.kind.Deployment? && Ops(m)[j].key in ScaledKeys(m)
  {
    SupportScalesNothing(m);
    ServingScales(m);
    hide SupportOps, ServingOps, ScaledKeys;
    var xs, ys := SupportOps(m), ServingOps(m);
    var ops := xs + ys;
    forall j, k | 0 <= j < k < |ops| && ops[j].scale && ops[k].scale ensures ops[j].key != ops[k].key {
      assert j >= |xs| && k >= |xs|;
      assert ys[j - |xs|].scale && ys[k - |xs|].scale;
    }
    forall j | 0 <= j < |ops| && ops[j].scale ensures ops[j].key.kind.Deployment? && ops[j].key in ScaledKeys(m) {
      assert j >= |xs|;
      assert ys[j - |xs|].scale;
    }
  }

  function ScaledKeys(m: Simulator): set<Key>
  {
    {Key(Deployment, m.ns, StageName("prefill")), Key(Deployment, m.ns, StageName("decode")),
     Key(Deployment, m.ns, LegacyName(m))}
  }

  predicate Unscaled(ops: seq<Op>) { forall j :: 0 <= j < |ops| ==> !ops[j].scale }

  lemma SupportScalesNothing(m: Simulator)
    ensures Unscaled(SupportOps(m))
  {
    hide EppOps, InstanceOps, DefaultEpp, DefaultInstance;
    if HasEpp(m.spec) { EppShape(m, DefaultEpp(m.spec.epp.value)); }
    if m.spec.gateways.Some? && m.spec.gateways.value.enabled {
      InstanceUnscaled(m, STANDARD_GATEWAY, m.spec.gateways.value.standard, false);
      InstanceUnscaled(m, ISTIO_GATEWAY, m.spec.gateways.value.istio, true);
    }
    hide OptionalInstance;
  }

  lemma InstanceUnscaled(m: Simulator, name: string, g: Option<Instance>, istio: bool)
    ensures Unscaled(OptionalInstance(m, name, g, istio))
  {
    hide InstanceOps, DefaultInstance;
    if g.Some? && g.value.enabled { InstanceShape(m, name, DefaultInstance(g.value, istio), istio); }
  }

  /** At most the first step scales, and then the Deployment k. */
  predicate ScalesOnly(ops: seq<Op>, k: Key)
  {
    forall j :: 0 <= j < |ops| && ops[j].scale ==> j == 0 && ops[j].key == k
  }

  predicate ScalesAmong(ops: seq<Op>, ks: set<Key>)
  {
    forall j :: 0 <= j < |ops| && ops[j].scale ==> ops[j].key.kind.Deployment? && ops[j].key in ks
  }

  lemma TwoScaled(xs: seq<Op>, ys: seq<Op>, k: Key, l: Key, ks: set<Key>)
    requires ScalesOnly(xs, k) && ScalesOnly(ys, l) && k != l
    requires k.kind.Deployment? && l.kind.Deployment? && k in ks && l in ks
    ensures NoRivals(xs + ys) && ScalesAmong(xs + ys, ks)
  {
  }

  lemma StageScales(m: Simulator, stage: string, c: Option<StageSpec>)
    ensures ScalesOnly(OptionalStage(m, stage, c), Key(Deployment, m.ns, StageName(stage)))
  {
    hide StageOps, DefaultStage, StageName;
    if HasStage(c) { StageKey(m, stage, DefaultStage(c.value, m.spec)); }
  }

  lemma ServingScales(m: Simulator)
    ensures NoRivals(ServingOps(m)) && ScalesAmong(ServingOps(m), ScaledKeys(m))
  {
    hide LegacyOps, OptionalStage, ServingOps, StageName, LegacyName, NoRivals, ScalesAmong, ScalesOnly;
    var s := m.spec;
    ServingCases(m);
    if IsLegacy(s) {
      LegacyScales(m, s.legacy);
      OneScaled(LegacyOps(m, s.legacy), Key(Deployment, m.ns, LegacyName(m)), ScaledKeys(m));
    } else {
      StagesDiffer();
      StageScales(m, "prefill", s.prefill);
      StageScales(m, "decode", s.decode);
      TwoScaled(OptionalStage(m, "prefill", s.prefill), OptionalStage(m, "decode", s.decode),
                Key(Deployment, m.ns, StageName("prefill")), Key(Deployment, m.ns, StageName("decode")), ScaledKeys(m));
    }
  }

  lemma OneScaled(xs: seq<Op>, k: Key, ks: set<Key>)
    requires ScalesOnly(xs, k) && k.kind.Deployment? && k in ks
    ensures NoRivals(xs) && ScalesAmong(xs, ks)
  {
  }

  lemma LegacyScales(m: Simulator, l: Legacy)
    ensures ScalesOnly(LegacyOps(m, l), Key(Deployment, m.ns, LegacyName(m)))
  {
    hide LegacyOps, LegacyName;
    LegacyKey(m, l);
  }

  lemma ServingCases(m: Simulator)
    ensures IsLegacy(m.spec) ==> ServingOps(m) == LegacyOps(m, m.spec.legacy)
    ensures !IsLegacy(m.spec) ==>
              ServingOps(m) == OptionalStage(m, "prefill", m.spec.prefill) + OptionalStage(m, "decode", m.spec.decode)
  {
    hide StageOps, LegacyOps;
  }

  lemma StagesDiffer()
    ensures StageName("prefill") != StageName("decode")
  {
    assert StageName("prefill")[|StageName("prefill")| - 1] != StageName("decode")[|StageName("decode")| - 1];
  }

  lemma StageKey(m: Simulator, stage: string, c: StageSpec)
    ensures var ops := StageOps(m, stage, c);
            |ops| == 2 && ops[0].scale && !ops[1].scale && ops[0].key == Key(Deployment, m.ns, StageName(stage))
            && ops[0].obj.replicas == Some(c.pod.replicas)
            && ops[1].key == Key(Service, m.ns, StageName(stage))
  {
    hide ServingLabels, SimulatorArgs, HttpService, StageName;
  }

  lemma LegacyKey(m: Simulator, l: Legacy)
    ensures var ops := LegacyOps(m, l);
            |ops| == 2 && ops[0].scale && !ops[1].scale && ops[0].key == Key(Deployment, m.ns, LegacyName(m))
            && ops[0].obj.replicas == Some(l.pod.replicas)
            && ops[1].key == Key(Service, m.ns, l.service.name)
  {
    hide ServingLabels, SimulatorArgs, Labelled, LegacyName;
  }

  // ---------- Convergence ----------

  /** Attempts on one resource, one after the other. */
  ghost predicate Retries(alloc: Key -> string, m: Simulator, tries: seq<Attempt>)
  {
    && (forall j :: 0 <= j < |tries| ==> Ran(alloc, Ops(m), tries[j]))
    && (forall j :: 0 < j < |tries| ==> tries[j].before == tries[j - 1].after)
  }

  lemma Reach(alloc: Key -> string, ops: seq<Op>, a: Attempt) returns (k: nat)
    requires Ran(alloc, ops, a)
    ensures k <= |ops| && a.after == AfterOps(alloc, ops[..k], a.before)
  {
    if a.ok {
      k := |ops|;
      assert ops[..k] == ops;
    } else {
      k :| 0 <= k <= |ops| && a.after == AfterOps(alloc, ops[..k], a.before);
    }
  }

  lemma {:induction false} RetriesAgree(alloc: Key -> string, m: Simulator, tries: seq<Attempt>)
    requires Retries(alloc, m, tries) && tries != []
    ensures AfterOps(alloc, Ops(m), tries[|tries| - 1].after) == AfterOps(alloc, Ops(m), tries[0].before)
    ensures AfterOps(alloc, Ops(m), tries[|tries| - 1].before) == AfterOps(alloc, Ops(m), tries[0].before)
    decreases |tries|
  {
    hide AfterOps, Ran, Ops, NoRivals;
    var n := |tries| - 1;
    if n == 0 {
    } else {
      assert tries[..n][n - 1] == tries[n - 1] && tries[..n][0] == tries[0];
      assert Retries(alloc, m, tries[..n]);
      RetriesAgree(alloc, m, tries[..n]);
    }
    OpsNoRivals(m);
    var k := Reach(alloc, Ops(m), tries[n]);
    RerunAbsorbs(alloc, Ops(m), k, tries[n].before);
  }

  /**
    Convergence: a success after any attempts is the one success from the original cluster, every object
    asked for is there, and the simulator Deployments have the replicas asked for.
  */
  lemma Converges(alloc: Key -> string, m: Simulator, tries: seq<Attempt>)
    requires Retries(alloc, m, tries) && tries != [] && tries[|tries| - 1].ok
    ensures tries[|tries| - 1].after == AfterOps(alloc, Ops(m), tries[0].before)
    ensures forall j :: 0 <= j < |Ops(m)| ==> Met(Ops(m)[j], tries[|tries| - 1].after)
  {
    RetriesAgree(alloc, m, tries);
    OpsNoRivals(m);
    hide AfterOps, Ops, NoRivals, Met;
    forall j | 0 <= j < |Ops(m)| ensures Met(Ops(m)[j], tries[|tries| - 1].after) {
      RunMeets(alloc, Ops(m), tries[0].before, j);
    }
  }

  /** A further run makes no Create or Update call and changes nothing. */
  lemma FurtherRunSilent(alloc: Key -> string, m: Simulator, a: Attempt, b: Attempt)
    requires Ran(alloc, Ops(m), a) && a.ok && Ran(alloc, Ops(m), b) && b.ok && b.before == a.after
    ensures b.edits == 0 && b.after == a.after
  {
    OpsNoRivals(m);
    hide AfterOps, OpEdits, Ops, NoRivals, Met;
    forall j | 0 <= j < |Ops(m)| ensures Met(Ops(m)[j], a.after) { RunMeets(alloc, Ops(m), a.before, j); }
    SilentIffMet(alloc, Ops(m), a.after);
  }

  // ---------- Frame ----------

  /** What a run may do to one key: create it from the resource, or set the replicas of a scaled Deployment. */
  predicate Framed(ops: seq<Op>, c: Objects, d: Objects, k: Key)
  {
    if k in c then
      k in d && (d[k] == c[k] || exists j :: 0 <= j < |ops| && ops[j].key == k && ops[j].scale
                                             && d[k] == c[k].(replicas := ops[j].obj.replicas))
    else k in d ==> exists j :: 0 <= j < |ops| && ops[j].key == k
  }

  lemma {:induction false} RunFrame(alloc: Key -> string, ops: seq<Op>, n: nat, c: Objects, k: Key)
    requires n <= |ops|
    ensures Framed(ops, c, AfterOps(alloc, ops[..n], c), k)
    decreases n
  {
    if n == 0 {
    } else {
      RunFrame(alloc, ops, n - 1, c, k);
      assert ops[..n][..n - 1] == ops[..n - 1] && ops[..n][n - 1] == ops[n - 1];
      StepFrame(alloc, ops, n - 1, c, AfterOps(alloc, ops[..n - 1], c), k);
    }
  }

  lemma StepFrame(alloc: Key -> string, ops: seq<Op>, n: nat, c: Objects, d: Objects, k: Key)
    requires n < |ops| && Framed(ops, c, d, k)
    ensures Framed(ops, c, ApplyOp(alloc, ops[n], d), k)
  {
    hide Stored;
    if ops[n].key == k && k in c {
      assert ApplyOp(alloc, ops[n], d)[k] == d[k]
        || (ops[n].scale && ApplyOp(alloc, ops[n], d)[k] == c[k].(replicas := ops[n].obj.replicas));
    }
  }

  /**
    Whatever way an attempt ends, a live object is unchanged but for the replicas of the simulator's own
    Deployments, and a new one has the key of an object asked for.
  */
  lemma AttemptFrame(alloc: Key -> string, m: Simulator, a: Attempt, k: Key)
    requires Ran(alloc, Ops(m), a)
    ensures k in a.before ==> k in a.after
    ensures k in a.before && k !in ScaledKeys(m) ==> a.after[k] == a.before[k]
    ensures k in a.before && k in ScaledKeys(m) ==> a.after[k] == a.before[k].(replicas := a.after[k].replicas)
    ensures k !in a.before && k in a.after ==> exists j :: 0 <= j < |Ops(m)| && Ops(m)[j].key == k
  {
    OpsNoRivals(m);
    hide AfterOps, Ops, NoRivals, ScaledKeys;
    var n := Reach(alloc, Ops(m), a);
    RunFrame(alloc, Ops(m), n, a.before, k);
  }

  // ---------- Status ----------

  /** The Deployments a reconcile may create, by name; those of the serving part only as configured. */
  predicate DeploymentAllowed(m: Simulator, k: Key)
  {
    k.kind.Deployment? ==>
      || k.name in {EPP_NAME, STANDARD_GATEWAY, ISTIO_GATEWAY, StageName("prefill")}
      || (k.name == StageName("decode") && HasStage(m.spec.decode))
      || (k.name == LegacyName(m) && IsLegacy(m.spec))
  }

  predicate AllAllowed(m: Simulator, ops: seq<Op>) { forall j :: 0 <= j < |ops| ==> DeploymentAllowed(m, ops[j].key) }

  lemma AllAppend(m: Simulator, xs: seq<Op>, ys: seq<Op>)
    requires AllAllowed(m, xs) && AllAllowed(m, ys)
    ensures AllAllowed(m, xs + ys)
  {
    hide DeploymentAllowed;
  }

  lemma EppAllowed(m: Simulator, e: EppSpec)
    ensures AllAllowed(m, EppOps(m, e))
  {
    hide EppArgs, Labelled, HttpService, StageName, LegacyName;
  }

  lemma InstanceAllowed(m: Simulator, name: string, g: Option<Instance>, istio: bool)
    requires name == STANDARD_GATEWAY || name == ISTIO_GATEWAY
    ensures AllAllowed(m, OptionalInstance(m, name, g, istio))
  {
    hide Labelled, GatewayLabels, GatewayContainer, HttpService, DefaultInstance, StageName, LegacyName;
  }

  lemma SupportAllowed(m: Simulator)
    ensures AllAllowed(m, SupportOps(m))
  {
    hide DeploymentAllowed, EppOps, OptionalInstance, DefaultEpp;
    if HasEpp(m.spec) { EppAllowed(m, DefaultEpp(m.spec.epp.value)); }
    if m.spec.gateways.Some? && m.spec.gateways.value.enabled {
      InstanceAllowed(m, STANDARD_GATEWAY, m.spec.gateways.value.standard, false);
      InstanceAllowed(m, ISTIO_GATEWAY, m.spec.gateways.value.istio, true);
    }
  }

  lemma ServingAllowed(m: Simulator)
    ensures AllAllowed(m, ServingOps(m))
  {
    hide StageOps, LegacyOps, DefaultStage, StageName, LegacyName;
    var s := m.spec;
    if HasStage(s.prefill) { StageKey(m, "prefill", DefaultStage(s.prefill.value, s)); }
    if HasStage(s.decode) { StageKey(m, "decode", DefaultStage(s.decode.value, s)); }
    LegacyKey(m, s.legacy);
    var xs, ys := OptionalStage(m, "prefill", s.prefill), OptionalStage(m, "decode", s.decode);
    var zs := if IsLegacy(s) then LegacyOps(m, s.legacy) else [];
    assert AllAllowed(m, xs) && AllAllowed(m, ys) && AllAllowed(m, zs);
    AllAppend(m, xs, ys);
    AllAppend(m, xs + ys, zs);
  }

  /** The name of the single Deployment differs from the fixed ones. */
  lemma LegacyNameApart(m: Simulator)
    ensures LegacyName(m) !in {EPP_NAME, STANDARD_GATEWAY, ISTIO_GATEWAY, StageName("prefill")}
  {
    var l, p := LegacyName(m), StageName("prefill");
    assert l[0] == 'm' && l[|l| - 1] == 'e' && p[|p| - 1] == 'l';
    assert EPP_NAME[0] == 'g' && STANDARD_GATEWAY[0] == 'i' && ISTIO_GATEWAY[0] == 'i';
  }

  /**
    After a success the Deployment whose status is reported is there, unless only the prefill stage is
    enabled: then it is there exactly if it was there before.
  */
  lemma StatusReportedIff(alloc: Key -> string, m: Simulator, a: Attempt)
    requires Ran(alloc, Ops(m), a) && a.ok
    ensures StatusKey(m) in a.after <==> (HasStage(m.spec.decode) || IsLegacy(m.spec) || StatusKey(m) in a.before)
  {
    hide AfterOps, OpEdits, SupportOps, ServingOps, StageName, LegacyName, DeploymentAllowed;
    var k, ops := StatusKey(m), Ops(m);
    AttemptFrame(alloc, m, a, k);
    if HasStage(m.spec.decode) || IsLegacy(m.spec) {
      var n := StatusOp(m);
      OpsNoRivals(m);
      RunMeets(alloc, ops, a.before, n);
    } else if k in a.after && k !in a.before {
      var j :| 0 <= j < |ops| && ops[j].key == k;
      SupportAllowed(m);
      ServingAllowed(m);
      assert DeploymentAllowed(m, ops[j].key);
      NotAllowed(m);
    }
  }

  lemma NotAllowed(m: Simulator)
    requires !HasStage(m.spec.decode) && !IsLegacy(m.spec)
    ensures !DeploymentAllowed(m, StatusKey(m))
  {
    LegacyNameApart(m);
  }

  lemma StatusOp(m: Simulator) returns (n: nat)
    requires HasStage(m.spec.decode) || IsLegacy(m.spec)
    ensures n < |Ops(m)| && Ops(m)[n].key == StatusKey(m)
  {
    hide StageOps, LegacyOps, DefaultStage, StageName, LegacyName, SupportOps;
    var s := m.spec;
    n := |SupportOps(m)|;
    LegacyKey(m, s.legacy);
    if HasStage(s.decode) {
      StageKey(m, "decode", DefaultStage(s.decode.value, s));
      n := n + |OptionalStage(m, "prefill", s.prefill)|;
    }
  }
}
