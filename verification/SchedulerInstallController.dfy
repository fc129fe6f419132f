/**
  The SchedulerInstall reconciler: defaults filled in place, then one create-or-update after another,
  stopping at the first error.
*/
module SchedulerInstallController {
  import opened Basics
  import opened Cluster
  import opened Conditions
  import opened SchedulerInstall

  /** The fetched resource; `SetDefaults` assigns its fields in place. */
  class Fetched {
    const ns: string
    const name: string
    var spec: Spec

    constructor (ns: string, name: string, spec: Spec)
      ensures this.ns == ns && this.name == name && this.spec == spec
    {
      this.ns, this.name, this.spec := ns, name, spec;
    }

    method SetProxyDefaults()
      modifies this
      ensures spec == old(spec).(proxy := DefaultProxy(old(spec).proxy))
    {
      var p := spec.proxy;
      if p.name == "" { p := p.(name := "gaie-inference-scheduling-proxy"); }
      if p.port == 0 { p := p.(port := 8200); }
      if p.targetPort == 0 { p := p.(targetPort := p.port); }
      if p.selector == map[] { p := p.(selector := DECODE_PODS); }
      spec := spec.(proxy := p);
    }

    method PodDefaults(pod: PodSpec) returns (p: PodSpec)
      ensures p == DefaultPod(pod)
    {
      p := pod;
      if p.replicas == 0 { p := p.(replicas := 1); }
      if p.image == "" { p := p.(image := "ghcr.io/llm-d/llm-d-inference-scheduler:v0.4.0"); }
    }

    method SetEppDefaults()
      modifies this
      ensures spec == old(spec).(epp := Map(old(spec).epp, (e: EppSpec) => DefaultEpp(e, old(spec).simNs)))
    {
      hide DefaultPod;
      if spec.epp.Some? {
        var e := spec.epp.value;
        if e.name == "" { e := e.(name := "gaie-inference-scheduling-epp"); }
        var pod := PodDefaults(e.pod);
        e := e.(pod := pod);
        if e.port == 0 { e := e.(port := 9002); }
        if e.poolName == "" { e := e.(poolName := "gaie-inference-scheduling"); }
        if e.poolNs == "" { e := e.(poolNs := spec.simNs); }
        if e.profile == "" { e := e.(profile := "default"); }
        spec := spec.(epp := Some(e));
      }
    }

    method SetGatewayDefaults()
      modifies this
      ensures spec == old(spec).(gateway := Map(old(spec).gateway, (g: GatewaySpec) => DefaultGateway(g)))
    {
      if spec.gateway.Some? {
        var g := spec.gateway.value;
        if g.name == "" { g := g.(name := "infra-inference-scheduling-inference-gateway"); }
        if g.className == "" { g := g.(className := "istio"); }
        if g.port == 0 { g := g.(port := 80); }
        if g.protocol == "" { g := g.(protocol := "HTTP"); }
        spec := spec.(gateway := Some(g));
      }
    }

    method PoolDefaults(pool: Option<PoolRef>) returns (p: PoolRef)
      ensures p == DefaultPool(pool, spec.epp, spec.simNs)
    {
      p := if pool.Some? then pool.value else PoolRef("", "", 0);
      if p.name == "" && spec.epp.Some? { p := p.(name := spec.epp.value.poolName); }
      if p.ns == "" {
        if spec.epp.Some? && spec.epp.value.poolNs != "" {
          p := p.(ns := spec.epp.value.poolNs);
        } else {
          p := p.(ns := spec.simNs);
        }
      }
    }

    method SetRoutingDefaults()
      modifies this
      ensures spec == old(spec).(routing := Map(old(spec).routing, (r: RoutingSpec) => DefaultRouting(r, old(spec))))
    {
      hide DefaultPool;
      if spec.routing.Some? {
        var r := spec.routing.value;
        if r.backendType == "" { r := r.(backendType := "Service"); }
        if r.routeName == "" { r := r.(routeName := "llm-d-inference-scheduling"); }
        if r.parent.name == "" && spec.gateway.Some? { r := r.(parent := r.parent.(name := spec.gateway.value.name)); }
        if r.parent.ns == "" { r := r.(parent := r.parent.(ns := spec.schedNs)); }
        if r.backendType == POOL_BACKEND {
          var p := PoolDefaults(r.pool);
          r := r.(pool := Some(p));
        }
        spec := spec.(routing := Some(r));
      }
    }

    method SetRuleAndFilterDefaults()
      modifies this
      ensures spec == old(spec).(rule := Map(old(spec).rule, (r: RuleSpec) => DefaultRule(r)),
                                 filter := Map(old(spec).filter,
                                               (f: FilterSpec) => DefaultFilter(f, old(spec).gateway)))
    {
      if spec.rule.Some? {
        var r := spec.rule.value;
        if r.algorithm == "" { r := r.(algorithm := "ROUND_ROBIN"); }
        if r.pool.None? { r := r.(pool := Some((1, 1))); }
        spec := spec.(rule := Some(r));
      }
      if spec.filter.Some? {
        var f := spec.filter.value;
        if f.name == "" { f := f.(name := "epp-ext-proc"); }
        if f.selector == map[] && spec.gateway.Some? {
          f := f.(selector := map["gateway.networking.k8s.io/gateway-name" := spec.gateway.value.name]);
        }
        spec := spec.(filter := Some(f));
      }
    }

    method SetDefaults()
      modifies this
      ensures spec == Defaulted(ns, old(spec))
    {
      hide DefaultProxy, DefaultEpp, DefaultGateway, DefaultRouting, DefaultRule, DefaultFilter;
      if spec.schedNs == "" { spec := spec.(schedNs := ns); }
      SetProxyDefaults();
      SetEppDefaults();
      SetGatewayDefaults();
      assert spec == DefaultBase(ns, old(spec));
      SetRoutingDefaults();
      SetRuleAndFilterDefaults();
    }
  }

  class Reconciler {
    const api: ApiServer<Spec, seq<Condition>>
    const has: Kind -> bool

    constructor (api: ApiServer<Spec, seq<Condition>>, has: Kind -> bool)
      ensures this.api == api && this.has == has
    {
      this.api, this.has := api, has;
    }

    ghost function Tried(before: Objects, ok: bool, edits: int): Attempt
      reads api
    {
      Attempt(before, api.objs, ok, api.edits - edits)
    }

    /** A create-or-update of an object that needs no controller reference. */
    method Upsert(w: Write) returns (ok: bool)
      requires w.change.claim.None?
      modifies api`objs, api`calls, api`edits
      ensures Ran(api.alloc, Just(w), Tried(old(api.objs), ok, old(api.edits)))
      ensures Reliable(api.fate) ==> ok
      ensures KeepsKeys(old(api.objs), api.objs)
      ensures ok ==> w.key in api.objs
    {
      hide Ran, Apply, Edits;
      ok := api.CreateOrUpdate(w);
      RanOne(api.alloc, w, Tried(old(api.objs), ok, old(api.edits)));
    }

    /** SetControllerReference, then the create-or-update. */
    method UpsertOwned(i: Install, w: Write) returns (ok: bool)
      requires w.change.claim.None?
      modifies api`objs, api`calls, api`edits
      ensures Ran(api.alloc, Owned(i, w), Tried(old(api.objs), ok, old(api.edits)))
      ensures Reliable(api.fate) && Owned(i, w).end.Done? ==> ok
      ensures KeepsKeys(old(api.objs), api.objs)
      ensures ok ==> w.key in api.objs
    {
      hide Ran, Apply;
      if w.key.ns != i.ns {
        ok := false;
        RanNone(api.alloc, FAIL, Tried(old(api.objs), false, old(api.edits)));
        return;
      }
      ok := Upsert(w);
    }

    method ReconcileRbac(i: Install, e: EppSpec) returns (ok: bool)
      modifies api`objs, api`calls, api`edits
      ensures Ran(api.alloc, RbacPlan(i, e), Tried(old(api.objs), ok, old(api.edits)))
      ensures Reliable(api.fate) ==> ok
      ensures KeepsKeys(old(api.objs), api.objs)
    {
      hide Ran, Then, RoleWrite, BindingWrite;
      assert RoleWrite(i, e).change.claim.None? && BindingWrite(i, e).change.claim.None? by { Unclaimed(i, e); }
      ghost var c, n := api.objs, api.edits;
      ok := Upsert(RoleWrite(i, e));
      ghost var a := Tried(c, ok, n);
      if ok { ok := Upsert(BindingWrite(i, e)); }
      RanNext(api.alloc, Just(RoleWrite(i, e)), Just(BindingWrite(i, e)), a, api.objs, ok, api.edits - n);
    }

    method ReconcileEppAccess(i: Install, e: EppSpec) returns (ok: bool)
      modifies api`objs, api`calls, api`edits
      ensures Ran(api.alloc, AccessPlan(i, e), Tried(old(api.objs), ok, old(api.edits)))
      ensures Reliable(api.fate) && AccessPlan(i, e).end.Done? ==> ok
    {
      hide Ran, KeepsKeys, Then, Owned, RbacPlan, AccountWrite;
      Unclaimed(i, e);
      OwnedEnds(i, e);
      ghost var c, n := api.objs, api.edits;
      var w := AccountWrite(i, e);
      ok := UpsertOwned(i, w);
      ghost var a := Tried(c, ok, n);
      if ok { ok := ReconcileRbac(i, e); }
      RanNext(api.alloc, Owned(i, w), RbacPlan(i, e), a, api.objs, ok, api.edits - n);
    }

    method ReconcileEppWorkload(i: Install, e: EppSpec) returns (ok: bool)
      modifies api`objs, api`calls, api`edits
      ensures Ran(api.alloc, WorkloadPlan(i, e), Tried(old(api.objs), ok, old(api.edits)))
      ensures Reliable(api.fate) && WorkloadPlan(i, e).end.Done? ==> ok
    {
      hide Ran, KeepsKeys, Then, Owned, ConfigWrite, DeploymentWrite;
      Unclaimed(i, e);
      OwnedEnds(i, e);
      ghost var c, n := api.objs, api.edits;
      var w, v := ConfigWrite(i, e), DeploymentWrite(i, e);
      ok := UpsertOwned(i, w);
      ghost var a := Tried(c, ok, n);
      if ok { ok := UpsertOwned(i, v); }
      RanNext(api.alloc, Owned(i, w), Owned(i, v), a, api.objs, ok, api.edits - n);
    }

    method ReconcileEpp(i: Install, e: EppSpec) returns (ok: bool)
      modifies api`objs, api`calls, api`edits
      ensures Ran(api.alloc, EppPlanOf(i, e), Tried(old(api.objs), ok, old(api.edits)))
      ensures Reliable(api.fate) && EppPlanOf(i, e).end.Done? ==> ok
      ensures ok ==> EppServiceKey(i, e) in api.objs
    {
      hide Ran, KeepsKeys, Then, Owned, AccessPlan, WorkloadPlan, EppServiceWrite, EppServiceKey;
      Unclaimed(i, e);
      OwnedEnds(i, e);
      ghost var c, n := api.objs, api.edits;
      var w := EppServiceWrite(i, e);
      ghost var p, q := AccessPlan(i, e), WorkloadPlan(i, e);
      ok := ReconcileEppAccess(i, e);
      ghost var a := Tried(c, ok, n);
      if ok { ok := ReconcileEppWorkload(i, e); }
      RanNext(api.alloc, p, q, a, api.objs, ok, api.edits - n);
      a := Tried(c, ok, n);
      if ok { ok := UpsertOwned(i, w); }
      RanNext(api.alloc, Then(p, q), Owned(i, w), a, api.objs, ok, api.edits - n);
    }

    method ReconcileGateway(i: Install, g: GatewaySpec) returns (ok: bool)
      requires i.spec.gateway == Some(g) && g.enabled
      modifies api`objs, api`calls, api`edits
      ensures Ran(api.alloc, GatewayPlan(has, i), Tried(old(api.objs), ok, old(api.edits)))
      ensures Reliable(api.fate) && GatewayPlan(has, i).end.Done? ==> ok
      ensures KeepsKeys(old(api.objs), api.objs)
    {
      hide Ran;
      if !has(Gateway) {
        ok := true;
        RanNone(api.alloc, NO_STEP, Tried(old(api.objs), ok, old(api.edits)));
        return;
      }
      ok := UpsertOwned(i, GatewayWrite(i, g));
    }

    method ReconcileProxyService(i: Install) returns (ok: bool)
      modifies api`objs, api`calls, api`edits
      ensures Ran(api.alloc, Just(ProxyWrite(i)), Tried(old(api.objs), ok, old(api.edits)))
      ensures Reliable(api.fate) ==> ok
      ensures KeepsKeys(old(api.objs), api.objs)
    {
      ok := Upsert(ProxyWrite(i));
    }

    method ReconcileReferenceGrant(i: Install) returns (ok: bool)
      modifies api`objs, api`calls, api`edits
      ensures Ran(api.alloc, GrantPlan(has, i), Tried(old(api.objs), ok, old(api.edits)))
      ensures Reliable(api.fate) ==> ok
      ensures KeepsKeys(old(api.objs), api.objs)
    {
      hide Ran;
      if !has(ReferenceGrant) {
        ok := true;
        RanNone(api.alloc, NO_STEP, Tried(old(api.objs), ok, old(api.edits)));
        return;
      }
      ok := Upsert(GrantWrite(i));
    }

    method ReconcileHTTPRoute(i: Install, r: RoutingSpec) returns (ok: bool)
      modifies api`objs, api`calls, api`edits
      ensures Ran(api.alloc, RoutePlan(has, i, r), Tried(old(api.objs), ok, old(api.edits)))
      ensures Reliable(api.fate) && RoutePlan(has, i, r).end.Done? ==> ok
      ensures KeepsKeys(old(api.objs), api.objs)
    {
      hide Ran;
      if !has(HTTPRoute) {
        ok := true;
        RanNone(api.alloc, NO_STEP, Tried(old(api.objs), ok, old(api.edits)));
        return;
      }
      ok := UpsertOwned(i, RouteWrite(i, r));
    }

    /** The grant, then the route; a pool without a name is an error before either. */
    method ReconcileRouting(i: Install, r: RoutingSpec) returns (ok: bool)
      requires i.spec.routing == Some(r) && r.enabled
      modifies api`objs, api`calls, api`edits
      ensures Ran(api.alloc, RoutingPlan(has, i), Tried(old(api.objs), ok, old(api.edits)))
      ensures Reliable(api.fate) && RoutingPlan(has, i).end.Done? ==> ok
      ensures KeepsKeys(old(api.objs), api.objs)
    {
      hide Ran, Then, GrantPlan, RoutePlan;
      if r.backendType == POOL_BACKEND {
        if r.pool.None? || r.pool.value.name == "" {
          ok := false;
          RanNone(api.alloc, FAIL, Tried(old(api.objs), ok, old(api.edits)));
          return;
        }
      }
      RoutingRanked(has, i);
      ghost var c, n := api.objs, api.edits;
      ok := ReconcileReferenceGrant(i);
      ghost var a := Tried(c, ok, n);
      if ok { ok := ReconcileHTTPRoute(i, r); }
      RanNext(api.alloc, GrantPlan(has, i), RoutePlan(has, i, r), a, api.objs, ok, api.edits - n);
    }

    method ReconcileDestinationRule(i: Install, r: RuleSpec) returns (ok: bool)
      requires i.spec.rule == Some(r) && r.enabled
      modifies api`objs, api`calls, api`edits
      ensures Ran(api.alloc, RulePlan(has, i), Tried(old(api.objs), ok, old(api.edits)))
      ensures Reliable(api.fate) ==> ok
      ensures KeepsKeys(old(api.objs), api.objs)
    {
      hide Ran;
      if !has(DestinationRule) {
        ok := true;
        RanNone(api.alloc, NO_STEP, Tried(old(api.objs), ok, old(api.edits)));
        return;
      }
      ok := Upsert(RuleWrite(i, r));
    }

    /** Reads the EPP Service's cluster IP first; the closure sets the controller reference. */
    method ReconcileEnvoyFilter(i: Install, e: EppSpec, f: FilterSpec) returns (ok: bool)
      requires i.spec.epp == Some(e) && e.enabled && i.spec.filter == Some(f) && f.enabled && f.selector != map[]
      modifies api`objs, api`calls, api`edits
      ensures Ran(api.alloc, FilterPlan(has, i, See(api.alloc, i, old(api.objs))),
                  Tried(old(api.objs), ok, old(api.edits)))
      ensures Reliable(api.fate) && EppServiceKey(i, e) in old(api.objs) ==>
                FilterPlan(has, i, See(api.alloc, i, old(api.objs))).end.Done? ==> ok
    {
      hide Ran, Apply, Edits;
      ghost var c, n := api.objs, api.edits;
      ghost var p := FilterPlan(has, i, See(api.alloc, i, c));
      if !has(EnvoyFilter) {
        ok := true;
        RanNone(api.alloc, NO_STEP, Tried(c, ok, n));
        return;
      }
      var svc := api.Get(EppServiceKey(i, e));
      if !svc.Found? || svc.value.clusterIP == "" || FilterKey(i, f).ns != i.ns {
        ok := false;
        RanFailed(api.alloc, p, Tried(c, ok, n));
        return;
      }
      var w := FilterWrite(i, e, f, svc.value.clusterIP);
      ok := api.CreateOrUpdate(w);
      if Claimable(w, c) {
        assert p == Just(w);
        RanOne(api.alloc, w, Tried(c, ok, n));
      } else {
        RanFailed(api.alloc, p, Tried(c, ok, n));
      }
    }

    method DeleteEnvoyFilter(i: Install, f: FilterSpec) returns (ok: bool)
      requires i.spec.filter == Some(f) && !f.enabled
      modifies api`objs, api`calls
      ensures Ran(api.alloc, FilterPlan(has, i, See(api.alloc, i, old(api.objs))),
                  Tried(old(api.objs), ok, old(api.edits)))
      ensures Reliable(api.fate) ==> ok
    {
      ghost var c, n := api.objs, api.edits;
      ghost var p := FilterPlan(has, i, See(api.alloc, i, c));
      if !has(EnvoyFilter) || f.name == "" {
        ok := true;
        RanNone(api.alloc, NO_STEP, Tried(c, ok, n));
        return;
      }
      ok := api.Delete(FilterKey(i, f));
      if !ok && api.objs == c { RanFailed(api.alloc, p, Tried(c, ok, n)); }
    }

    method ReconcileServices(i: Install) returns (ok: bool)
      modifies api`objs, api`calls, api`edits
      ensures Ran(api.alloc, ServicesPlan(has, i), Tried(old(api.objs), ok, old(api.edits)))
      ensures Reliable(api.fate) && ServicesPlan(has, i).end.Done? ==> ok
      ensures ok && i.spec.epp.Some? && i.spec.epp.value.enabled ==> EppServiceKey(i, i.spec.epp.value) in api.objs
    {
      hide Ran, Then, Ranked, EppPlanOf, GatewayPlan, ProxyWrite, EppServiceKey;
      MainRanked(has, i);
      GatewayRanked(has, i);
      ghost var c, n := api.objs, api.edits;
      ok := true;
      if i.spec.epp.Some? && i.spec.epp.value.enabled {
        ok := ReconcileEpp(i, i.spec.epp.value);
      } else {
        RanNone(api.alloc, NO_STEP, Tried(c, ok, n));
      }
      ghost var a := Tried(c, ok, n);
      if ok { ok := ReconcileOptionalGateway(i); }
      RanNext(api.alloc, EppPlan(i), GatewayPlan(has, i), a, api.objs, ok, api.edits - n);
      a := Tried(c, ok, n);
      if ok { ok := ReconcileProxyService(i); }
      RanNext(api.alloc, Then(EppPlan(i), GatewayPlan(has, i)), Just(ProxyWrite(i)), a, api.objs, ok, api.edits - n);
    }

    method ReconcileOptionalGateway(i: Install) returns (ok: bool)
      modifies api`objs, api`calls, api`edits
      ensures Ran(api.alloc, GatewayPlan(has, i), Tried(old(api.objs), ok, old(api.edits)))
      ensures Reliable(api.fate) && GatewayPlan(has, i).end.Done? ==> ok
      ensures KeepsKeys(old(api.objs), api.objs)
    {
      hide Ran;
      ok := true;
      if i.spec.gateway.Some? && i.spec.gateway.value.enabled {
        ok := ReconcileGateway(i, i.spec.gateway.value);
      } else {
        RanNone(api.alloc, NO_STEP, Tried(old(api.objs), ok, old(api.edits)));
      }
    }

    method ReconcileTraffic(i: Install) returns (ok: bool)
      modifies api`objs, api`calls, api`edits
      ensures Ran(api.alloc, TrafficPlan(has, i), Tried(old(api.objs), ok, old(api.edits)))
      ensures Reliable(api.fate) && TrafficPlan(has, i).end.Done? ==> ok
      ensures KeepsKeys(old(api.objs), api.objs)
    {
      hide Ran, Then;
      RoutingRanked(has, i);
      ghost var c, n := api.objs, api.edits;
      ok := true;
      if i.spec.routing.Some? && i.spec.routing.value.enabled {
        ok := ReconcileRouting(i, i.spec.routing.value);
      } else {
        RanNone(api.alloc, NO_STEP, Tried(c, ok, n));
      }
      ghost var a := Tried(c, ok, n);
      ghost var mid := api.objs;
      if ok {
        if i.spec.rule.Some? && i.spec.rule.value.enabled {
          ok := ReconcileDestinationRule(i, i.spec.rule.value);
        } else {
          RanNone(api.alloc, NO_STEP, Attempt(mid, mid, true, 0));
        }
      }
      RanNext(api.alloc, RoutingPlan(has, i), RulePlan(has, i), a, api.objs, ok, api.edits - n);
    }

    method ReconcileFilter(i: Install) returns (ok: bool)
      modifies api`objs, api`calls, api`edits
      ensures Ran(api.alloc, FilterPlan(has, i, See(api.alloc, i, old(api.objs))),
                  Tried(old(api.objs), ok, old(api.edits)))
      ensures Reliable(api.fate) && (i.spec.epp.Some? && i.spec.epp.value.enabled ==>
                EppServiceKey(i, i.spec.epp.value) in old(api.objs)) ==>
                !FilterPlan(has, i, See(api.alloc, i, old(api.objs))).end.Broken? ==> ok
    {
      hide Ran;
      ghost var p := FilterPlan(has, i, See(api.alloc, i, api.objs));
      if i.spec.filter.Some? {
        var f := i.spec.filter.value;
        if f.enabled {
          if i.spec.epp.None? || !i.spec.epp.value.enabled || f.selector == map[] {
            ok := false;
            RanFailed(api.alloc, p, Tried(old(api.objs), ok, old(api.edits)));
            return;
          }
          ok := ReconcileEnvoyFilter(i, i.spec.epp.value, f);
        } else {
          ok := DeleteEnvoyFilter(i, f);
        }
      } else {
        ok := true;
        RanNone(api.alloc, NO_STEP, Tried(old(api.objs), ok, old(api.edits)));
      }
    }

    /** The body of Reconcile between the defaults and the status. */
    method ReconcileObjects(i: Install) returns (ok: bool)
      modifies api`objs, api`calls, api`edits
      ensures Ran(api.alloc, PlanAt(api.alloc, has, i, old(api.objs)), Tried(old(api.objs), ok, old(api.edits)))
      ensures Reliable(api.fate) && !PlanAt(api.alloc, has, i, old(api.objs)).end.Broken? ==> ok
    {
      hide Then, ServicesPlan, TrafficPlan, FilterPlan, EppServiceKey, Ran, See;
      if i.spec.simNs == "" {
        ok := false;
        RanFailed(api.alloc, FAIL, Tried(old(api.objs), ok, old(api.edits)));
        return;
      }
      MainRanked(has, i);
      ghost var c, n := api.objs, api.edits;
      ok := ReconcileServices(i);
      ghost var a := Tried(c, ok, n);
      if ok { ok := ReconcileTraffic(i); }
      RanNext(api.alloc, ServicesPlan(has, i), TrafficPlan(has, i), a, api.objs, ok, api.edits - n);
      a := Tried(c, ok, n);
      if ok {
        RanSeen(api.alloc, has, i, a);
        ok := ReconcileFilter(i);
      }
      RanNext(api.alloc, MainPlan(has, i), FilterPlan(has, i, See(api.alloc, i, c)), a, api.objs, ok, api.edits - n);
    }

    /** Get, overwrite or append the condition, update. */
    method UpdateStatus(now: int) returns (ok: bool)
      modifies api`calls, api`status
      ensures api.status == SetReady(old(api.status), ReadyAt(now))
              || (!ok && api.status == old(api.status))
      ensures Reliable(api.fate) && api.own.Some? ==> ok
    {
      var latest := api.GetOwn();
      if !latest.Found? { return false; }
      var cs := UpdateConditions(api.status, ReadyAt(now));
      ok := api.SetStatus(cs);
    }

    /**
      One reconcile of the resource `name` in `ns`. Success finishes the plan and sets the condition; an
      error leaves a first part of the plan done. With no failing call it succeeds exactly when the plan
      is sound.
    */
    method Reconcile(ns: string, name: string, now: int) returns (ok: bool)
      modifies api`objs, api`calls, api`edits, api`status
      ensures old(api.own).None? ==>
                api.objs == old(api.objs) && api.status == old(api.status) && (Reliable(api.fate) ==> ok)
      ensures old(api.own).Some? ==>
                var i := Install(ns, name, Defaulted(ns, old(api.own).value));
                var p := PlanAt(api.alloc, has, i, old(api.objs));
                && (ok ==> Ran(api.alloc, p, Tried(old(api.objs), true, old(api.edits)))
                           && api.status == SetReady(old(api.status), ReadyAt(now)))
                && (!ok ==> (Ran(api.alloc, p, Tried(old(api.objs), false, old(api.edits)))
                             || Ran(api.alloc, p, Tried(old(api.objs), true, old(api.edits)))))
                && (Reliable(api.fate) ==> (ok <==> !p.end.Broken?))
    {
      hide Ran, PlanAt, Defaulted, SetReady;
      var r := api.GetOwn();
      if r.NotFound? { return true; }
      if r.GetFailed? {
        ok := false;
        if api.own.Some? {
          ghost var i := Install(ns, name, Defaulted(ns, api.own.value));
          RanFailed(api.alloc, PlanAt(api.alloc, has, i, api.objs), Tried(old(api.objs), ok, old(api.edits)));
        }
        return;
      }
      var fetched := new Fetched(ns, name, r.value);
      fetched.SetDefaults();
      var i := Install(ns, name, fetched.spec);
      ghost var p := PlanAt(api.alloc, has, i, api.objs);
      ok := ReconcileObjects(i);
      if ok {
        RanSound(api.alloc, p, Tried(old(api.objs), ok, old(api.edits)));
        ok := UpdateStatus(now);
      }
    }
  }

  function ReadyAt(now: int): Condition
  {
    Condition(READY, true, "Reconciled", "SchedulerInstall resources are ready", now)
  }

  /** The first "Ready" condition says that the install is reconciled; the other conditions keep their places. */
  lemma ReadyTells(cs: seq<Condition>, now: int)
    ensures var r := SetReady(cs, ReadyAt(now));
            && |r| >= |cs| && (forall i :: 0 <= i < |cs| && cs[i].name != "Ready" ==> r[i] == cs[i])
            && exists c :: FirstReady(r, c) && c.name == "Ready" && c.status && c.reason == "Reconciled"
                           && c.message == "SchedulerInstall resources are ready" && c.at == now
  {
    SetReadyPlace(cs, ReadyAt(now));
  }
}
