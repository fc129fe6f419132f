/** The SimulatorDeployment reconciler: read, create what is missing, scale the simulator Deployments. */
module SimulatorDeploymentController {
  import opened Basics
  import opened Cluster
  import opened Conditions
  import opened SimulatorDeployment

  /** The replica counts of a Deployment's status. */
  datatype Counts = Counts(replicas: int, ready: int)

  datatype Status = Status(counts: Counts, conditions: seq<Condition>)

  /** The fetched resource; `SetDefaults` assigns its fields in place. */
  class Fetched {
    const ns: string
    const name: string
    var spec: Spec

    constructor (ns: string, name: string, spec: Spec)
      ensures this.ns == ns && this.name == name && this.spec == spec
    {
      this.ns, this.name, this.spec := ns, name, spec;
    }

    method ServiceDefaults(service: ServiceSpec) returns (s: ServiceSpec)
      ensures s == DefaultService(service)
    {
      s := service;
      if s.name == "" { s := s.(name := "gaie-inference-scheduling-proxy"); }
      if s.port == 0 { s := s.(port := 8200); }
      if s.svcType == "" { s := s.(svcType := "ClusterIP"); }
    }

    method SetDefaults()
      modifies this
      ensures spec == Defaulted(old(spec))
    {
      hide DefaultService;
      var l := spec.legacy;
      if l.pod.replicas == 0 { l := l.(pod := l.pod.(replicas := 2)); }
      if l.pod.image == "" { l := l.(pod := l.pod.(image := LOCAL_IMAGE)); }
      var s := ServiceDefaults(l.service);
      l := l.(service := s);
      if l.verbosity == 0 { l := l.(verbosity := 5); }
      spec := spec.(legacy := l);
    }
  }

  class Reconciler {
    const api: ApiServer<Spec, Status>

    constructor (api: ApiServer<Spec, Status>)
      ensures this.api == api
    {
      this.api := api;
    }

    ghost function Tried(before: Objects, ok: bool, edits: int): Attempt
      reads api
    {
      Attempt(before, api.objs, ok, api.edits - edits)
    }

    /** Get; create if there is none; leave a live object alone. */
    method CreateIfMissing(op: Op) returns (ok: bool)
      requires !op.scale
      modifies api`objs, api`calls, api`edits
      ensures Ran(api.alloc, [op], Tried(old(api.objs), ok, old(api.edits)))
      ensures Reliable(api.fate) ==> ok
    {
      hide Ran, Stored;
      var found := api.Get(op.key);
      match found {
        case GetFailed => ok := false;
        case NotFound =>
          ok := api.Create(op.key, op.obj);
          assert op.key !in old(api.objs);
        case Found(_) => ok := true;
      }
      RanOne(api.alloc, op, Tried(old(api.objs), ok, old(api.edits)));
    }

    /** Get; create if there is none; set the replicas of a live Deployment if they differ. */
    method CreateOrScale(op: Op) returns (ok: bool)
      requires op.scale
      modifies api`objs, api`calls, api`edits
      ensures Ran(api.alloc, [op], Tried(old(api.objs), ok, old(api.edits)))
      ensures Reliable(api.fate) ==> ok
    {
      hide Ran, Stored;
      var found := api.Get(op.key);
      match found {
        case GetFailed => ok := false;
        case NotFound =>
          ok := api.Create(op.key, op.obj);
          assert op.key !in old(api.objs);
        case Found(o) =>
          ok := true;
          if o.replicas != op.obj.replicas {
            ok := api.Update(op.key, o.(replicas := op.obj.replicas));
            assert old(api.objs)[op.key].replicas != op.obj.replicas;
            assert api.objs == old(api.objs) || api.objs[op.key].replicas == op.obj.replicas;
          }
      }
      RanOne(api.alloc, op, Tried(old(api.objs), ok, old(api.edits)));
    }

    /** The three objects of the EPP or of a gateway: ConfigMap, Deployment, Service. */
    method CreateThree(ops: seq<Op>) returns (ok: bool)
      requires |ops| == 3 && !ops[0].scale && !ops[1].scale && !ops[2].scale
      modifies api`objs, api`calls, api`edits
      ensures Ran(api.alloc, ops, Tried(old(api.objs), ok, old(api.edits)))
      ensures Reliable(api.fate) ==> ok
    {
      hide Ran;
      ghost var c, n := api.objs, api.edits;
      ok := CreateIfMissing(ops[0]);
      ghost var a := Tried(c, ok, n);
      if ok { ok := CreateIfMissing(ops[1]); }
      RanNext(api.alloc, [ops[0]], [ops[1]], a, api.objs, ok, api.edits - n);
      a := Tried(c, ok, n);
      if ok { ok := CreateIfMissing(ops[2]); }
      RanNext(api.alloc, [ops[0]] + [ops[1]], [ops[2]], a, api.objs, ok, api.edits - n);
      assert ops == [ops[0]] + [ops[1]] + [ops[2]];
    }

    /** A simulator Deployment and its Service. */
    method ScaleAndServe(ops: seq<Op>) returns (ok: bool)
      requires |ops| == 2 && ops[0].scale && !ops[1].scale
      modifies api`objs, api`calls, api`edits
      ensures Ran(api.alloc, ops, Tried(old(api.objs), ok, old(api.edits)))
      ensures Reliable(api.fate) ==> ok
    {
      hide Ran;
      ghost var c, n := api.objs, api.edits;
      ok := CreateOrScale(ops[0]);
      ghost var a := Tried(c, ok, n);
      if ok { ok := CreateIfMissing(ops[1]); }
      RanNext(api.alloc, [ops[0]], [ops[1]], a, api.objs, ok, api.edits - n);
      assert ops == [ops[0]] + [ops[1]];
    }

    method EppDefaults(epp: EppSpec) returns (e: EppSpec)
      ensures e == DefaultEpp(epp)
    {
      e := epp;
      if e.pod.replicas == 0 { e := e.(pod := e.pod.(replicas := 1)); }
      if e.pod.image == "" { e := e.(pod := e.pod.(image := "ghcr.io/llm-d/llm-d-inference-scheduler:v0.4.0")); }
      if e.port == 0 { e := e.(port := 8100); }
      if e.verbosity == 0 { e := e.(verbosity := 1); }
    }

    method InstanceDefaults(instance: Instance, istio: bool) returns (g: Instance)
      ensures g == DefaultInstance(instance, istio)
    {
      g := instance;
      if g.replicas == 0 { g := g.(replicas := 1); }
      if g.image == "" {
        if istio {
          g := g.(image := "docker.io/istio/proxyv2:1.28.1");
        } else {
          g := g.(image := "cr.kgateway.dev/kgateway-dev/envoy-wrapper:v2.1.1");
        }
      }
      if g.port == 0 { g := g.(port := 8080); }
    }

    method StageDefaults(stage: StageSpec, s: Spec) returns (c: StageSpec)
      ensures c == DefaultStage(stage, s)
    {
      c := stage;
      if c.pod.replicas == 0 { c := c.(pod := c.pod.(replicas := 2)); }
      if c.pod.image == "" {
        c := c.(pod := c.pod.(image := s.legacy.pod.image));
        if c.pod.image == "" { c := c.(pod := c.pod.(image := LOCAL_IMAGE)); }
      }
      if c.port == 0 { c := c.(port := 8200); }
      if c.verbosity == 0 { c := c.(verbosity := s.legacy.verbosity); }
    }

    method ReconcileInstance(m: Simulator, name: string, g: Option<Instance>, istio: bool) returns (ok: bool)
      modifies api`objs, api`calls, api`edits
      ensures Ran(api.alloc, OptionalInstance(m, name, g, istio), Tried(old(api.objs), ok, old(api.edits)))
      ensures Reliable(api.fate) ==> ok
    {
      hide Ran, InstanceOps, DefaultInstance;
      if g.None? || !g.value.enabled {
        ok := true;
        RanNone(api.alloc, [], Tried(old(api.objs), ok, old(api.edits)));
        return;
      }
      var config := InstanceDefaults(g.value, istio);
      InstanceShape(m, name, config, istio);
      ok := CreateThree(InstanceOps(m, name, config, istio));
    }

    method ReconcileStage(m: Simulator, stage: string, c: Option<StageSpec>) returns (ok: bool)
      modifies api`objs, api`calls, api`edits
      ensures Ran(api.alloc, OptionalStage(m, stage, c), Tried(old(api.objs), ok, old(api.edits)))
      ensures Reliable(api.fate) ==> ok
    {
      hide Ran, StageOps, DefaultStage;
      if !HasStage(c) {
        ok := true;
        RanNone(api.alloc, [], Tried(old(api.objs), ok, old(api.edits)));
        return;
      }
      var config := StageDefaults(c.value, m.spec);
      StageShape(m, stage, config);
      ok := ScaleAndServe(StageOps(m, stage, config));
    }

    method ReconcileGateways(m: Simulator) returns (ok: bool)
      modifies api`objs, api`calls, api`edits
      ensures Ran(api.alloc, GatewayOps(m), Tried(old(api.objs), ok, old(api.edits)))
      ensures Reliable(api.fate) ==> ok
    {
      hide Ran, OptionalInstance;
      if m.spec.gateways.None? || !m.spec.gateways.value.enabled {
        ok := true;
        RanNone(api.alloc, [], Tried(old(api.objs), ok, old(api.edits)));
        return;
      }
      var standard, istio := m.spec.gateways.value.standard, m.spec.gateways.value.istio;
      ghost var c, n := api.objs, api.edits;
      ok := ReconcileInstance(m, STANDARD_GATEWAY, standard, false);
      ghost var a := Tried(c, ok, n);
      if ok { ok := ReconcileInstance(m, ISTIO_GATEWAY, istio, true); }
      RanNext(api.alloc, OptionalInstance(m, STANDARD_GATEWAY, standard, false),
              OptionalInstance(m, ISTIO_GATEWAY, istio, true), a, api.objs, ok, api.edits - n);
    }

    /** The EPP and the gateways. */
    method ReconcileSupport(m: Simulator) returns (ok: bool)
      modifies api`objs, api`calls, api`edits
      ensures Ran(api.alloc, SupportOps(m), Tried(old(api.objs), ok, old(api.edits)))
      ensures Reliable(api.fate) ==> ok
    {
      hide Ran, EppOps, GatewayOps, DefaultEpp;
      ghost var c, n := api.objs, api.edits;
      ghost var ops := if HasEpp(m.spec) then EppOps(m, DefaultEpp(m.spec.epp.value)) else [];
      ok := true;
      if HasEpp(m.spec) {
        var e := EppDefaults(m.spec.epp.value);
        EppShape(m, e);
        ok := CreateThree(EppOps(m, e));
      } else {
        RanNone(api.alloc, [], Tried(c, ok, n));
      }
      ghost var a := Tried(c, ok, n);
      if ok { ok := ReconcileGateways(m); }
      RanNext(api.alloc, ops, GatewayOps(m), a, api.objs, ok, api.edits - n);
    }

    /** The stages, or the single Deployment if both are disabled. */
    method ReconcileServing(m: Simulator) returns (ok: bool)
      modifies api`objs, api`calls, api`edits
      ensures Ran(api.alloc, ServingOps(m), Tried(old(api.objs), ok, old(api.edits)))
      ensures Reliable(api.fate) ==> ok
    {
      hide Ran, OptionalStage, LegacyOps;
      ghost var c, n := api.objs, api.edits;
      ghost var xs, ys := OptionalStage(m, "prefill", m.spec.prefill), OptionalStage(m, "decode", m.spec.decode);
      ghost var zs := if IsLegacy(m.spec) then LegacyOps(m, m.spec.legacy) else [];
      ok := ReconcileStage(m, "prefill", m.spec.prefill);
      ghost var a := Tried(c, ok, n);
      if ok { ok := ReconcileStage(m, "decode", m.spec.decode); }
      RanNext(api.alloc, xs, ys, a, api.objs, ok, api.edits - n);
      a := Tried(c, ok, n);
      if ok { ok := ReconcileLegacy(m); }
      RanNext(api.alloc, xs + ys, zs, a, api.objs, ok, api.edits - n);
    }

    method ReconcileLegacy(m: Simulator) returns (ok: bool)
      modifies api`objs, api`calls, api`edits
      ensures var ops := if IsLegacy(m.spec) then LegacyOps(m, m.spec.legacy) else [];
              Ran(api.alloc, ops, Tried(old(api.objs), ok, old(api.edits)))
      ensures Reliable(api.fate) ==> ok
    {
      hide Ran, LegacyOps;
      if !IsLegacy(m.spec) {
        ok := true;
        RanNone(api.alloc, [], Tried(old(api.objs), ok, old(api.edits)));
        return;
      }
      LegacyShape(m, m.spec.legacy);
      ok := ScaleAndServe(LegacyOps(m, m.spec.legacy));
    }

    /**
      The Deployment whose status is reported is read first; if it is missing the status is left alone. Else
      its replica counts are copied and the condition is set.
    */
    method UpdateStatus(m: Simulator, observed: Counts, now: int) returns (ok: bool)
      modifies api`calls, api`status
      ensures StatusKey(m) !in api.objs ==> api.status == old(api.status)
      ensures api.status == Reported(old(api.status), observed, now)
              || ((StatusKey(m) !in api.objs || !ok) && api.status == old(api.status))
      ensures Reliable(api.fate) && api.own.Some? ==> ok
    {
      var deployment := api.Get(StatusKey(m));
      match deployment
      case NotFound => return true;
      case GetFailed => return false;
      case Found(_) =>
        var latest := api.GetOwn();
        if !latest.Found? { return false; }
        var cs := UpdateConditions(api.status.conditions, Observed(observed, now));
        ok := api.SetStatus(Status(observed, cs));
    }

    /**
      One reconcile of the resource `name` in `ns`; `observed` is what the Deployment's status says. Success has
      done all that was asked for, an error a first part of it; with no failing call it succeeds.
    */
    method Reconcile(ns: string, name: string, observed: Counts, now: int) returns (ok: bool)
      modifies api`objs, api`calls, api`edits, api`status
      ensures old(api.own).None? ==> api.objs == old(api.objs) && api.status == old(api.status)
      ensures old(api.own).Some? ==>
                var m := Simulator(ns, name, Defaulted(old(api.own).value));
                && (Ran(api.alloc, Ops(m), Tried(old(api.objs), true, old(api.edits)))
                    || (!ok && Ran(api.alloc, Ops(m), Tried(old(api.objs), false, old(api.edits)))))
                && (ok ==> api.status == if StatusKey(m) in api.objs
                                             then Reported(old(api.status), observed, now)
                                             else old(api.status))
      ensures Reliable(api.fate) ==> ok
    {
      hide Ran, SupportOps, ServingOps, Defaulted, Reported, StatusKey;
      var r := api.GetOwn();
      if r.NotFound? { return true; }
      if r.GetFailed? {
        ok := false;
        if api.own.Some? {
          RanNone(api.alloc, Ops(Simulator(ns, name, Defaulted(api.own.value))),
                  Tried(old(api.objs), ok, old(api.edits)));
        }
        return;
      }
      var fetched := new Fetched(ns, name, r.value);
      fetched.SetDefaults();
      var m := Simulator(ns, name, fetched.spec);
      ghost var c, n := api.objs, api.edits;
      ok := ReconcileSupport(m);
      ghost var a := Tried(c, ok, n);
      if ok { ok := ReconcileServing(m); }
      RanNext(api.alloc, SupportOps(m), ServingOps(m), a, api.objs, ok, api.edits - n);
      if ok { ok := UpdateStatus(m, observed, now); }
    }
  }

  /** The Deployment updateStatus looks at. */
  function StatusKey(m: Simulator): Key
  {
    Key(Deployment, m.ns, if HasStage(m.spec.decode) then StageName("decode") else LegacyName(m))
  }

  function Observed(n: Counts, now: int): Condition
  {
    if n.ready == n.replicas then Condition(READY, true, "DeploymentReady", "Simulator deployment is ready", now)
    else Condition(READY, false, "DeploymentNotReady", "Waiting for pods to be ready", now)
  }

  /** The status after a report of the counts: the other conditions are kept. */
  function Reported(s: Status, n: Counts, now: int): Status
  {
    Status(n, SetReady(s.conditions, Observed(n, now)))
  }

  /**
    The status tells the counts, and by its first "Ready" condition whether as many pods are ready as there are;
    the other conditions keep their places.
  */
  lemma ReportTells(s: Status, n: Counts, now: int)
    ensures var r := Reported(s, n, now);
            && r.counts == n && |r.conditions| >= |s.conditions|
            && (forall i :: 0 <= i < |s.conditions| && s.conditions[i].name != "Ready" ==>
                  r.conditions[i] == s.conditions[i])
            && exists c :: FirstReady(r.conditions, c) && c.name == "Ready" && (c.status <==> n.ready == n.replicas)
                           && c.reason == (if n.ready == n.replicas then "DeploymentReady" else "DeploymentNotReady")
                           && c.message == (if n.ready == n.replicas then "Simulator deployment is ready"
                                            else "Waiting for pods to be ready")
                           && c.at == now
  {
    SetReadyPlace(s.conditions, Observed(n, now));
  }

  lemma EppShape(m: Simulator, e: EppSpec)
    ensures |EppOps(m, e)| == 3 && forall k :: 0 <= k < 3 ==> !EppOps(m, e)[k].scale
  {
    hide EppArgs, Labelled, HttpService;
  }

  lemma InstanceShape(m: Simulator, name: string, g: Instance, istio: bool)
    ensures |InstanceOps(m, name, g, istio)| == 3 && forall k :: 0 <= k < 3 ==> !InstanceOps(m, name, g, istio)[k].scale
  {
    hide Labelled, GatewayLabels, GatewayContainer, HttpService;
  }

  lemma StageShape(m: Simulator, stage: string, c: StageSpec)
    ensures |StageOps(m, stage, c)| == 2 && StageOps(m, stage, c)[0].scale && !StageOps(m, stage, c)[1].scale
  {
    hide ServingLabels, SimulatorArgs, HttpService, StageName;
  }

  lemma LegacyShape(m: Simulator, l: Legacy)
    ensures |LegacyOps(m, l)| == 2 && LegacyOps(m, l)[0].scale && !LegacyOps(m, l)[1].scale
  {
    hide ServingLabels, SimulatorArgs, Labelled, LegacyName;
  }
}
