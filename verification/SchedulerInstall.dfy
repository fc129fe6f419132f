/**
  The SchedulerInstall resource: its specification, the defaults the reconciler fills in, and the plan of
  writes one reconcile carries out.
*/
module SchedulerInstall {
  import opened Basics
  import opened Cluster

  datatype ProxySpec = ProxySpec(name: string, port: int, targetPort: int, selector: Labels)

  datatype EppSpec = EppSpec(enabled: bool, name: string, port: int, verbosity: int,
                             poolName: string, poolNs: string, profile: string, pod: PodSpec)

  datatype GatewaySpec = GatewaySpec(enabled: bool, name: string, className: string, port: int, protocol: string)

  datatype PoolRef = PoolRef(name: string, ns: string, port: int)

  datatype GatewayRef = GatewayRef(name: string, ns: string)

  datatype RoutingSpec =
    RoutingSpec(enabled: bool, backendType: string, pool: Option<PoolRef>, routeName: string, parent: GatewayRef)

  datatype RuleSpec = RuleSpec(enabled: bool, algorithm: string, pool: Option<(int, int)>)

  datatype FilterSpec = FilterSpec(enabled: bool, name: string, selector: Labels)

  /** An absent section is `None`; an unset string is "" and an unset number 0, as in the resource's schema. */
  datatype Spec = Spec(schedNs: string, simNs: string, proxy: ProxySpec, epp: Option<EppSpec>,
                       gateway: Option<GatewaySpec>, routing: Option<RoutingSpec>,
                       rule: Option<RuleSpec>, filter: Option<FilterSpec>)

  datatype Install = Install(ns: string, name: string, spec: Spec)

  // ---------- Defaults ----------

  const POOL_BACKEND := "InferencePool"

  const DECODE_PODS: Labels := map["llm-d.ai/role" := "decode", "llm-d.ai/inferenceServing" := "true"]

  function DefaultProxy(p: ProxySpec): ProxySpec
  {
    var port := OrNumber(p.port, 8200);
    ProxySpec(Or(p.name, "gaie-inference-scheduling-proxy"), port, OrNumber(p.targetPort, port),
              if p.selector == map[] then DECODE_PODS else p.selector)
  }

  function DefaultPod(p: PodSpec): PodSpec
  {
    p.(replicas := OrNumber(p.replicas, 1), image := Or(p.image, "ghcr.io/llm-d/llm-d-inference-scheduler:v0.4.0"))
  }

  function DefaultEpp(e: EppSpec, simNs: string): EppSpec
  {
    e.(name := Or(e.name, "gaie-inference-scheduling-epp"),
       port := OrNumber(e.port, 9002),
       poolName := Or(e.poolName, "gaie-inference-scheduling"),
       poolNs := Or(e.poolNs, simNs),
       profile := Or(e.profile, "default"),
       pod := DefaultPod(e.pod))
  }

  function DefaultGateway(g: GatewaySpec): GatewaySpec
  {
    g.(name := Or(g.name, "infra-inference-scheduling-inference-gateway"), className := Or(g.className, "istio"),
       port := OrNumber(g.port, 80), protocol := Or(g.protocol, "HTTP"))
  }

  function DefaultParent(p: GatewayRef, gateway: Option<GatewaySpec>, schedNs: string): GatewayRef
  {
    GatewayRef(if p.name == "" && gateway.Some? then gateway.value.name else p.name, Or(p.ns, schedNs))
  }

  function DefaultPool(p: Option<PoolRef>, epp: Option<EppSpec>, simNs: string): PoolRef
  {
    var pool := if p.Some? then p.value else PoolRef("", "", 0);
    pool.(name := if pool.name == "" && epp.Some? then epp.value.poolName else pool.name,
          ns := if pool.ns != "" then pool.ns
                else if epp.Some? && epp.value.poolNs != "" then epp.value.poolNs else simNs)
  }

  /** Routing defaults read the sections already defaulted before them. */
  function DefaultRouting(r: RoutingSpec, d: Spec): RoutingSpec
  {
    var backend := Or(r.backendType, "Service");
    r.(backendType := backend,
       routeName := Or(r.routeName, "llm-d-inference-scheduling"),
       parent := DefaultParent(r.parent, d.gateway, d.schedNs),
       pool := if backend == POOL_BACKEND then Some(DefaultPool(r.pool, d.epp, d.simNs)) else r.pool)
  }

  function DefaultRule(r: RuleSpec): RuleSpec
  {
    r.(algorithm := Or(r.algorithm, "ROUND_ROBIN"), pool := if r.pool.None? then Some((1, 1)) else r.pool)
  }

  function DefaultFilter(f: FilterSpec, gateway: Option<GatewaySpec>): FilterSpec
  {
    f.(name := Or(f.name, "epp-ext-proc"),
       selector := if f.selector == map[] && gateway.Some?
                   then map["gateway.networking.k8s.io/gateway-name" := gateway.value.name] else f.selector)
  }

  function Map<S, T>(o: Option<S>, f: S -> T): Option<T>
  {
    if o.Some? then Some(f(o.value)) else None
  }

  /** The sections other sections' defaults read. */
  function DefaultBase(ns: string, s: Spec): Spec
  {
    s.(schedNs := Or(s.schedNs, ns),
       proxy := DefaultProxy(s.proxy),
       epp := Map(s.epp, (e: EppSpec) => DefaultEpp(e, s.simNs)),
       gateway := Map(s.gateway, (g: GatewaySpec) => DefaultGateway(g)))
  }

  function Defaulted(ns: string, s: Spec): Spec
  {
    var d := DefaultBase(ns, s);
    d.(routing := Map(s.routing, (r: RoutingSpec) => DefaultRouting(r, d)),
       rule := Map(s.rule, (r: RuleSpec) => DefaultRule(r)),
       filter := Map(s.filter, (f: FilterSpec) => DefaultFilter(f, d.gateway)))
  }

  // ---------- What one reconcile writes ----------

  function CrossLabels(i: Install): Labels
  {
    map["sim.llm-d.io/schedulerInstall" := i.name, "sim.llm-d.io/schedulerNamespace" := i.ns]
  }

  function Us(i: Install): Option<Owner> { Some(InstallOwner(i.name)) }

  function Sets(content: Content): Change { Change(KeepLabels, None, Some(content), None) }

  function AccountWrite(i: Install, e: EppSpec): Write
  {
    Write(Key(ServiceAccount, i.spec.schedNs, e.name), map[], Us(i), Change(KeepLabels, None, None, None))
  }

  function RoleWrite(i: Install, e: EppSpec): Write
  {
    Write(Key(Role, i.spec.simNs, e.name), CrossLabels(i), None, Sets(Rules))
  }

  function BindingWrite(i: Install, e: EppSpec): Write
  {
    Write(Key(RoleBinding, i.spec.simNs, e.name), CrossLabels(i), None, Sets(Binding(e.name, e.name, i.spec.schedNs)))
  }

  function ConfigName(e: EppSpec): string { e.name + "-config" }

  /** The text of the plugin configuration, named by the profile it belongs to. */
  function PluginsConfig(profile: string): string
  {
    if profile == "proxy-performance" || profile == "proxy-performance-by-backend" then profile else "default"
  }

  function ConfigWrite(i: Install, e: EppSpec): Write
  {
    Write(Key(ConfigMap, i.spec.schedNs, ConfigName(e)), map[], Us(i),
          Change(MergeLabels(map["app.kubernetes.io/name" := i.name]), None,
                 Some(Data(map["epp-config.yaml" := PluginsConfig(e.profile)])), None))
  }

  function GrpcPort(e: EppSpec): int { OrNumber(e.port, 9002) }

  function PoolArgs(e: EppSpec): seq<Arg>
  {
    [Text("--pool-name"), Text(e.poolName), Text("--pool-namespace"), Text(e.poolNs),
     Text("--pool-group"), Text("inference.networking.k8s.io"), Text("--zap-encoder"), Text("json")]
  }

  const CONFIG_ARGS: seq<Arg> :=
    [Text("--config-file"), Text("/etc/epp/epp-config.yaml"),
     Text("--kv-cache-usage-percentage-metric"), Text("vllm:kv_cache_usage_perc"), Text("--secure-serving=false")]

  function PortArgs(e: EppSpec): seq<Arg>
  {
    [Text("--grpc-port"), Number(GrpcPort(e)), Text("--grpc-health-port"), Number(Next32(GrpcPort(e))),
     Text("--v"), Number(OrNumber(e.verbosity, 1)), Text("--tracing=false")]
  }

  function EppArgs(e: EppSpec): seq<Arg>
  {
    PoolArgs(e) + CONFIG_ARGS + PortArgs(e) + Texts(e.pod.args)
  }

  function EppLabels(i: Install, e: EppSpec): Labels
  {
    map["app" := e.name, "app.kubernetes.io/name" := i.name]
  }

  function EppContainer(e: EppSpec): Container
  {
    Container("epp", e.pod.image, EppArgs(e), [GrpcPort(e), Next32(GrpcPort(e)), 9090], e.pod.resources)
  }

  function DeploymentWrite(i: Install, e: EppSpec): Write
  {
    var labels := EppLabels(i, e);
    Write(Key(Deployment, i.spec.schedNs, e.name), map[], Us(i),
          Change(ReplaceLabels(labels), Some(e.pod.replicas),
                 Some(Workload(labels, labels, e.name, EppContainer(e), ConfigName(e))), None))
  }

  function EppServiceKey(i: Install, e: EppSpec): Key { Key(Service, i.spec.schedNs, e.name) }

  function EppServiceWrite(i: Install, e: EppSpec): Write
  {
    Write(EppServiceKey(i, e), map[], Us(i),
          Sets(Endpoint("ClusterIP", map["app" := e.name], [Port("grpc", e.port, 9002)])))
  }

  function GatewayWrite(i: Install, g: GatewaySpec): Write
  {
    Write(Key(Gateway, i.spec.schedNs, g.name), map[], Us(i), Sets(Listener(g.className, g.port, g.protocol)))
  }

  function ProxyContent(p: ProxySpec): Content
  {
    Endpoint("ClusterIP", p.selector, [Port("http", p.port, p.targetPort)])
  }

  function ProxyKey(i: Install): Key { Key(Service, i.spec.simNs, i.spec.proxy.name) }

  function ProxyWrite(i: Install): Write
  {
    Write(ProxyKey(i), CrossLabels(i), None, Sets(ProxyContent(i.spec.proxy)))
  }

  function GrantWrite(i: Install): Write
  {
    Write(Key(ReferenceGrant, i.spec.simNs, "allow-scheduler-httproute"), map[], None,
          Change(MergeLabels(CrossLabels(i)), None, Some(Grant(i.spec.schedNs)), None))
  }

  function RouteBackend(i: Install, r: RoutingSpec): Backend
  {
    if r.backendType == POOL_BACKEND && r.pool.Some? then
      PoolBackend(r.pool.value.name, r.pool.value.ns, if r.pool.value.port != 0 then Some(r.pool.value.port) else None)
    else ServiceBackend(i.spec.proxy.name, i.spec.simNs, i.spec.proxy.port)
  }

  function RouteWrite(i: Install, r: RoutingSpec): Write
  {
    Write(Key(HTTPRoute, i.spec.schedNs, r.routeName), map[], Us(i),
          Sets(Route(r.parent.name, r.parent.ns, RouteBackend(i, r))))
  }

  function HostName(service: string, ns: string): string { service + "." + ns + ".svc.cluster.local" }

  function RuleWrite(i: Install, r: RuleSpec): Write
  {
    Write(Key(DestinationRule, i.spec.simNs, i.spec.proxy.name + "-lb"), map[], None,
          Change(MergeLabels(CrossLabels(i)), None,
                 Some(Balancing(HostName(i.spec.proxy.name, i.spec.simNs), r.algorithm, r.pool)), None))
  }

  function FilterKey(i: Install, f: FilterSpec): Key { Key(EnvoyFilter, i.spec.schedNs, f.name) }

  function FilterWrite(i: Install, e: EppSpec, f: FilterSpec, address: string): Write
  {
    Write(FilterKey(i, f), map[], None,
          Change(MergeLabels(CrossLabels(i)), None, Some(ExtProcFilter(f.selector, address, e.port)), Us(i)))
  }

  // ---------- The plan ----------

  /** How a plan ends after its writes: well, with an error, or by deleting an object. */
  datatype End = Done | Broken | Drop(key: Key)

  datatype Plan = Plan(writes: seq<Write>, end: End)

  const NO_STEP := Plan([], Done)
  const FAIL := Plan([], Broken)

  /** The second plan runs only if the first ends well. */
  function Then(p: Plan, q: Plan): Plan
  {
    if p.end.Done? then Plan(p.writes + q.writes, q.end) else p
  }

  function Just(w: Write): Plan { Plan([w], Done) }

  /** SetControllerReference refuses an owner in another namespace. */
  function Owned(i: Install, w: Write): Plan { if w.key.ns == i.ns then Just(w) else FAIL }

  function RbacPlan(i: Install, e: EppSpec): Plan
  {
    Then(Just(RoleWrite(i, e)), Just(BindingWrite(i, e)))
  }

  function AccessPlan(i: Install, e: EppSpec): Plan
  {
    Then(Owned(i, AccountWrite(i, e)), RbacPlan(i, e))
  }

  function WorkloadPlan(i: Install, e: EppSpec): Plan
  {
    Then(Owned(i, ConfigWrite(i, e)), Owned(i, DeploymentWrite(i, e)))
  }

  /** The six writes of the EPP, in order. */
  function EppPlanOf(i: Install, e: EppSpec): Plan
  {
    Then(Then(AccessPlan(i, e), WorkloadPlan(i, e)), Owned(i, EppServiceWrite(i, e)))
  }

  predicate HasEpp(i: Install) { i.spec.epp.Some? && i.spec.epp.value.enabled }

  function EppPlan(i: Install): Plan
  {
    if HasEpp(i) then EppPlanOf(i, i.spec.epp.value) else NO_STEP
  }

  function GatewayPlan(has: Kind -> bool, i: Install): Plan
  {
    if i.spec.gateway.Some? && i.spec.gateway.value.enabled && has(Gateway) then
      Owned(i, GatewayWrite(i, i.spec.gateway.value))
    else NO_STEP
  }

  function GrantPlan(has: Kind -> bool, i: Install): Plan
  {
    if has(ReferenceGrant) then Just(GrantWrite(i)) else NO_STEP
  }

  function RoutePlan(has: Kind -> bool, i: Install, r: RoutingSpec): Plan
  {
    if has(HTTPRoute) then Owned(i, RouteWrite(i, r)) else NO_STEP
  }

  function RoutingPlan(has: Kind -> bool, i: Install): Plan
  {
    if i.spec.routing.None? || !i.spec.routing.value.enabled then NO_STEP
    else
      var r := i.spec.routing.value;
      if r.backendType == POOL_BACKEND && (r.pool.None? || r.pool.value.name == "") then FAIL
      else Then(GrantPlan(has, i), RoutePlan(has, i, r))
  }

  function RulePlan(has: Kind -> bool, i: Install): Plan
  {
    if i.spec.rule.Some? && i.spec.rule.value.enabled && has(DestinationRule) then Just(RuleWrite(i, i.spec.rule.value))
    else NO_STEP
  }

  /** What the reconciler reads of the cluster beyond the objects it writes. */
  datatype Seen = Seen(address: string, holder: Option<Owner>)

  function FilterPlan(has: Kind -> bool, i: Install, seen: Seen): Plan
  {
    if i.spec.filter.None? then NO_STEP
    else
      var f := i.spec.filter.value;
      if !f.enabled then (if has(EnvoyFilter) && f.name != "" then Plan([], Drop(FilterKey(i, f))) else NO_STEP)
      else if !HasEpp(i) || f.selector == map[] then FAIL
      else if !has(EnvoyFilter) then NO_STEP
      else if seen.address == "" || (seen.holder.Some? && seen.holder != Us(i)) then FAIL
      else Owned(i, FilterWrite(i, i.spec.epp.value, f, seen.address))
  }

  function ServicesPlan(has: Kind -> bool, i: Install): Plan
  {
    Then(Then(EppPlan(i), GatewayPlan(has, i)), Just(ProxyWrite(i)))
  }

  function TrafficPlan(has: Kind -> bool, i: Install): Plan
  {
    Then(RoutingPlan(has, i), RulePlan(has, i))
  }

  /** Everything but the EnvoyFilter. */
  function MainPlan(has: Kind -> bool, i: Install): Plan
  {
    Then(ServicesPlan(has, i), TrafficPlan(has, i))
  }

  function PlanOf(has: Kind -> bool, i: Install, seen: Seen): Plan
  {
    if i.spec.simNs == "" then FAIL else Then(MainPlan(has, i), FilterPlan(has, i, seen))
  }

  /** The cluster IP the EPP Service has or will be given, and the controller of the live EnvoyFilter. */
  function See(alloc: Key -> string, i: Install, c: Objects): Seen
  {
    if i.spec.epp.None? || i.spec.filter.None? then Seen("", None)
    else
      var svc, f := EppServiceKey(i, i.spec.epp.value), FilterKey(i, i.spec.filter.value);
      Seen(AddressOf(alloc, c, svc), if f in c then c[f].owner else None)
  }

  /** The plan of a reconcile that starts from cluster `c`; `i` has its defaults. */
  function PlanAt(alloc: Key -> string, has: Kind -> bool, i: Install, c: Objects): Plan
  {
    PlanOf(has, i, See(alloc, i, c))
  }

  function Finish(alloc: Key -> string, p: Plan, c: Objects): Objects
  {
    var d := After(alloc, p.writes, c);
    if p.end.Drop? then d - {p.end.key} else d
  }

  // ---------- Attempts ----------

  ghost predicate KeepsKeys(c: Objects, d: Objects) { c.Keys <= d.Keys }

  ghost predicate Partly(alloc: Key -> string, p: Plan, c: Objects, d: Objects)
  {
    exists k :: 0 <= k <= |p.writes| && d == After(alloc, p.writes[..k], c)
  }

  /** Success leaves the finished plan; failure leaves some first part of it, or all of it. */
  ghost predicate Ran(alloc: Key -> string, p: Plan, a: Attempt)
  {
    if a.ok then
      !p.end.Broken? && a.after == Finish(alloc, p, a.before) && a.edits == Edits(alloc, p.writes, a.before)
    else
      Partly(alloc, p, a.before, a.after) || (p.end.Drop? && a.after == Finish(alloc, p, a.before))
  }

  lemma RanOne(alloc: Key -> string, w: Write, a: Attempt)
    requires a.after == a.before || a.after == Apply(alloc, w, a.before)
    requires a.ok ==> a.after == Apply(alloc, w, a.before) && a.edits == if a.after == a.before then 0 else 1
    ensures Ran(alloc, Just(w), a)
  {
    hide Apply;
    var ws := [w];
    assert ws[..0] == [] && ws[..1] == ws;
    assert After(alloc, ws[..0], a.before) == a.before;
    assert After(alloc, ws, a.before) == Apply(alloc, w, After(alloc, ws[..0], a.before));
    assert Edits(alloc, ws[..0], a.before) == 0;
  }

  lemma RanNone(alloc: Key -> string, p: Plan, a: Attempt)
    requires p.writes == [] && !p.end.Drop? && a.before == a.after && (a.ok ==> p.end.Done? && a.edits == 0)
    ensures Ran(alloc, p, a)
  {
    assert After(alloc, p.writes[..0], a.before) == a.before;
  }

  /** A plan given up on before its first write. */
  lemma RanFailed(alloc: Key -> string, p: Plan, a: Attempt)
    requires !a.ok && a.before == a.after
    ensures Ran(alloc, p, a)
  {
    assert After(alloc, p.writes[..0], a.before) == a.before;
  }

  /** One more step: taken if all went well so far. */
  lemma RanNext(alloc: Key -> string, p: Plan, q: Plan, a: Attempt, after: Objects, ok: bool, edits: int)
    requires Ran(alloc, p, a) && !p.end.Drop?
    requires a.ok ==> Ran(alloc, q, Attempt(a.after, after, ok, edits - a.edits))
    requires !a.ok ==> !ok && after == a.after
    ensures Ran(alloc, Then(p, q), Attempt(a.before, after, ok, edits))
    ensures Then(p, q).end.Done? ==> p.end.Done? && q.end.Done?
    ensures !Then(p, q).end.Broken? ==> p.end.Done? && !q.end.Broken?
    ensures !q.end.Drop? ==> !Then(p, q).end.Drop?
  {
    hide After, Edits;
    if a.ok {
      AfterAppend(alloc, p.writes, q.writes, a.before);
      if !ok && Partly(alloc, q, a.after, after) {
        var k :| 0 <= k <= |q.writes| && after == After(alloc, q.writes[..k], a.after);
        AfterAppend(alloc, p.writes, q.writes[..k], a.before);
        assert (p.writes + q.writes)[..|p.writes| + k] == p.writes + q.writes[..k];
      }
    } else {
      var k :| 0 <= k <= |p.writes| && a.after == After(alloc, p.writes[..k], a.before);
      assert p.end.Done? ==> (p.writes + q.writes)[..k] == p.writes[..k];
    }
  }

  lemma Unclaimed(i: Install, e: EppSpec)
    ensures RoleWrite(i, e).change.claim.None? && BindingWrite(i, e).change.claim.None?
    ensures AccountWrite(i, e).change.claim.None? && ConfigWrite(i, e).change.claim.None?
    ensures DeploymentWrite(i, e).change.claim.None? && EppServiceWrite(i, e).change.claim.None?
    ensures EppServiceWrite(i, e).key == EppServiceKey(i, e)
  {
    hide EppContainer, CrossLabels, EppLabels, ConfigName, PluginsConfig;
  }

  lemma OwnedEnds(i: Install, e: EppSpec)
    ensures !Owned(i, AccountWrite(i, e)).end.Drop? && !Owned(i, ConfigWrite(i, e)).end.Drop?
    ensures !Owned(i, DeploymentWrite(i, e)).end.Drop? && !Owned(i, EppServiceWrite(i, e)).end.Drop?
    ensures RbacPlan(i, e).end.Done? && !AccessPlan(i, e).end.Drop? && !WorkloadPlan(i, e).end.Drop?
  {
    hide AccountWrite, RoleWrite, BindingWrite, ConfigWrite, DeploymentWrite, EppServiceWrite;
  }

  // ---------- The order of the writes ----------

  /** The place of a write in the plan; the two Services tell apart by their owner. */
  function Rank(w: Write): int
  {
    match w.key.kind
    case ServiceAccount => 0
    case Role => 1
    case RoleBinding => 2
    case ConfigMap => 3
    case Deployment => 4
    case Service => if w.owner.Some? then 5 else 7
    case Gateway => 6
    case ReferenceGrant => 8
    case HTTPRoute => 9
    case DestinationRule => 10
    case EnvoyFilter => 11
  }

  /** The writes on Services; both write the content alone. */
  predicate ServiceWrite(i: Install, w: Write)
  {
    ContentOnly(w) && (w == ProxyWrite(i) || (HasEpp(i) && w == EppServiceWrite(i, i.spec.epp.value)))
  }

  /**
    Every write has its own rank, in increasing order; a Service is written by one of two writes; only the
    last write, the EnvoyFilter's, claims its object in the closure.
  */
  ghost predicate Ranked(i: Install, ws: seq<Write>, lo: int, hi: int)
  {
    && (forall j :: 0 <= j < |ws| ==> lo <= Rank(ws[j]) < hi && (ws[j].key.kind.Service? ==> ServiceWrite(i, ws[j])))
    && (forall j :: 0 <= j < |ws| ==> Rank(ws[j]) < 11 ==> ws[j].change.claim.None?)
    && (forall j, k :: 0 <= j < k < |ws| ==> Rank(ws[j]) < Rank(ws[k]))
  }

  lemma RankedThen(i: Install, p: Plan, q: Plan, lo: int, mid: int, hi: int)
    requires lo <= mid <= hi && Ranked(i, p.writes, lo, mid) && Ranked(i, q.writes, mid, hi)
    ensures Ranked(i, Then(p, q).writes, lo, hi)
    ensures Then(p, q).end == if p.end.Done? then q.end else p.end
  {
    hide Rank, ServiceWrite;
  }

  lemma OwnedRanked(i: Install, w: Write)
    requires w.key.kind.Service? ==> ServiceWrite(i, w)
    requires Rank(w) < 11 ==> w.change.claim.None?
    ensures Ranked(i, Owned(i, w).writes, Rank(w), Rank(w) + 1) && !Owned(i, w).end.Drop?
    ensures Ranked(i, Just(w).writes, Rank(w), Rank(w) + 1)
  {
    hide Rank, ServiceWrite;
  }

  lemma EppRanks(i: Install, e: EppSpec)
    ensures Rank(AccountWrite(i, e)) == 0 && Rank(RoleWrite(i, e)) == 1 && Rank(BindingWrite(i, e)) == 2
    ensures Rank(ConfigWrite(i, e)) == 3 && Rank(DeploymentWrite(i, e)) == 4 && Rank(EppServiceWrite(i, e)) == 5
    ensures i.spec.epp == Some(e) && e.enabled ==> ServiceWrite(i, EppServiceWrite(i, e))
    ensures ContentOnly(EppServiceWrite(i, e)) && EppServiceWrite(i, e).key.kind.Service?
    ensures !AccountWrite(i, e).key.kind.Service? && !RoleWrite(i, e).key.kind.Service?
    ensures !BindingWrite(i, e).key.kind.Service? && !ConfigWrite(i, e).key.kind.Service?
    ensures !DeploymentWrite(i, e).key.kind.Service?
  {
    hide EppContainer, CrossLabels, EppLabels, ConfigName, PluginsConfig;
  }

  lemma RestRanks(i: Install, r: RoutingSpec, u: RuleSpec)
    ensures Rank(ProxyWrite(i)) == 7 && ContentOnly(ProxyWrite(i)) && ServiceWrite(i, ProxyWrite(i))
    ensures Rank(GrantWrite(i)) == 8 && Rank(RouteWrite(i, r)) == 9 && Rank(RuleWrite(i, u)) == 10
    ensures ProxyWrite(i).key.kind.Service? && GrantWrite(i).key.kind.ReferenceGrant?
    ensures RouteWrite(i, r).key.kind.HTTPRoute? && RuleWrite(i, u).key.kind.DestinationRule?
    ensures ProxyWrite(i).change.claim.None? && GrantWrite(i).change.claim.None?
    ensures RouteWrite(i, r).change.claim.None? && RuleWrite(i, u).change.claim.None?
  {
    hide CrossLabels, HostName, RouteBackend, ProxyContent;
  }

  lemma EppRanked(i: Install, e: EppSpec)
    requires i.spec.epp == Some(e) && e.enabled
    ensures Ranked(i, EppPlanOf(i, e).writes, 0, 6) && !EppPlanOf(i, e).end.Drop?
  {
    var w0, w1, w2, w3, w4, w5 := AccountWrite(i, e), RoleWrite(i, e), BindingWrite(i, e), ConfigWrite(i, e),
                                  DeploymentWrite(i, e), EppServiceWrite(i, e);
    EppRanks(i, e);
    Unclaimed(i, e);
    hide Ranked, Rank, ServiceWrite, Owned, Then, AccountWrite, RoleWrite, BindingWrite, ConfigWrite, DeploymentWrite,
      EppServiceWrite;
    OwnedRanked(i, w0);
    OwnedRanked(i, w1);
    OwnedRanked(i, w2);
    OwnedRanked(i, w3);
    OwnedRanked(i, w4);
    OwnedRanked(i, w5);
    var p0, p3, p4, p5 := Owned(i, w0), Owned(i, w3), Owned(i, w4), Owned(i, w5);
    var p1 := RbacPlan(i, e);
    RankedThen(i, Just(w1), Just(w2), 1, 2, 3);
    RankedThen(i, p0, p1, 0, 1, 3);
    RankedThen(i, p3, p4, 3, 4, 5);
    RankedThen(i, AccessPlan(i, e), WorkloadPlan(i, e), 0, 3, 5);
    RankedThen(i, Then(AccessPlan(i, e), WorkloadPlan(i, e)), p5, 0, 5, 6);
  }

  lemma GatewayRanked(has: Kind -> bool, i: Install)
    ensures Ranked(i, GatewayPlan(has, i).writes, 6, 7) && !GatewayPlan(has, i).end.Drop?
  {
    if GatewayPlan(has, i).writes != [] { OwnedRanked(i, GatewayWrite(i, i.spec.gateway.value)); }
  }

  lemma RoutingRanked(has: Kind -> bool, i: Install)
    ensures Ranked(i, RoutingPlan(has, i).writes, 8, 10) && !RoutingPlan(has, i).end.Drop?
    ensures GrantPlan(has, i).end.Done?
  {
    if i.spec.routing.Some? {
      var r := i.spec.routing.value;
      var g, w := GrantWrite(i), RouteWrite(i, r);
      RestRanks(i, r, RuleSpec(false, "", None));
      assert Ranked(i, [], 8, 9) && Ranked(i, [], 9, 10) && Ranked(i, [], 8, 10);
      hide Ranked, Rank, ServiceWrite, Owned, GrantWrite, RouteWrite;
      OwnedRanked(i, g);
      OwnedRanked(i, w);
      RankedThen(i, GrantPlan(has, i), RoutePlan(has, i, r), 8, 9, 10);
    }
  }

  lemma RuleRanked(has: Kind -> bool, i: Install)
    ensures Ranked(i, RulePlan(has, i).writes, 10, 11) && RulePlan(has, i).end.Done?
    ensures Ranked(i, Just(ProxyWrite(i)).writes, 7, 8)
  {
    hide ProxyWrite, RuleWrite, Rank, ServiceWrite;
    var u := if i.spec.rule.Some? then i.spec.rule.value else RuleSpec(false, "", None);
    RestRanks(i, RoutingSpec(false, "", None, "", GatewayRef("", "")), u);
    OwnedRanked(i, ProxyWrite(i));
    OwnedRanked(i, RuleWrite(i, u));
    assert Ranked(i, [], 10, 11);
  }

  lemma FilterRanked(has: Kind -> bool, i: Install, seen: Seen)
    ensures Ranked(i, FilterPlan(has, i, seen).writes, 11, 12)
    ensures var p := FilterPlan(has, i, seen); p.end.Drop? ==> p.writes == [] && p.end.key.kind.EnvoyFilter?
  {
    if FilterPlan(has, i, seen).writes != [] {
      OwnedRanked(i, FilterWrite(i, i.spec.epp.value, i.spec.filter.value, seen.address));
    }
  }

  lemma MainRanked(has: Kind -> bool, i: Install)
    ensures Ranked(i, MainPlan(has, i).writes, 0, 11) && !MainPlan(has, i).end.Drop?
    ensures !ServicesPlan(has, i).end.Drop? && !TrafficPlan(has, i).end.Drop? && !EppPlan(i).end.Drop?
  {
    var p0, p1, p2 := EppPlan(i), GatewayPlan(has, i), Just(ProxyWrite(i));
    assert Ranked(i, [], 0, 6);
    hide Ranked, Then, GatewayPlan, RoutingPlan, RulePlan, ProxyWrite, EppPlanOf;
    if p0 != NO_STEP { EppRanked(i, i.spec.epp.value); }
    GatewayRanked(has, i);
    RoutingRanked(has, i);
    RuleRanked(has, i);
    RankedThen(i, p0, p1, 0, 6, 7);
    RankedThen(i, Then(p0, p1), p2, 0, 7, 8);
    RankedThen(i, RoutingPlan(has, i), RulePlan(has, i), 8, 10, 11);
    RankedThen(i, ServicesPlan(has, i), TrafficPlan(has, i), 0, 8, 11);
  }

  /** The whole plan is ranked; only its last step deletes, and what it deletes it does not write. */
  lemma PlanRanked(has: Kind -> bool, i: Install, seen: Seen)
    ensures Ranked(i, PlanOf(has, i, seen).writes, 0, 12)
    ensures var p := PlanOf(has, i, seen);
            p.end.Drop? ==> p.end.key.kind.EnvoyFilter? && Ranked(i, p.writes, 0, 11)
  {
    if i.spec.simNs != "" {
      var p, q := MainPlan(has, i), FilterPlan(has, i, seen);
      assert Ranked(i, [], 11, 11);
      hide Ranked, Then, MainPlan, FilterPlan;
      MainRanked(has, i);
      FilterRanked(has, i, seen);
      RankedThen(i, p, q, 0, 11, 12);
      if q.end.Drop? { RankedThen(i, p, q, 0, 11, 11); }
    }
  }

  /** What the reconciler reads for the EnvoyFilter is not changed by the writes before it. */
  lemma SeenKept(alloc: Key -> string, i: Install, ws: seq<Write>, c: Objects)
    requires Ranked(i, ws, 0, 11)
    ensures See(alloc, i, After(alloc, ws, c)) == See(alloc, i, c)
  {
    hide After;
    if i.spec.epp.Some? && i.spec.filter.Some? {
      AddressKept(alloc, ws, c, EppServiceKey(i, i.spec.epp.value));
      Untouched(alloc, ws, c, FilterKey(i, i.spec.filter.value));
    }
  }

  /** Once the main plan is done, the EnvoyFilter's part is what it would have been at the start. */
  lemma RanSeen(alloc: Key -> string, has: Kind -> bool, i: Install, a: Attempt)
    requires Ran(alloc, MainPlan(has, i), a) && a.ok
    ensures See(alloc, i, a.after) == See(alloc, i, a.before)
  {
    hide MainPlan, See, Edits;
    MainRanked(has, i);
    SeenKept(alloc, i, MainPlan(has, i).writes, a.before);
  }

  lemma RanSound(alloc: Key -> string, p: Plan, a: Attempt)
    requires Ran(alloc, p, a) && a.ok
    ensures !p.end.Broken?
  {
  }

  lemma RankedCoherent(i: Install, ws: seq<Write>, lo: int, hi: int)
    requires Ranked(i, ws, lo, hi)
    ensures Coherent(ws)
  {
  }

  /** Of the writes on one key the one of the highest rank is the last. */
  lemma {:induction false} LastOnIs(ws: seq<Write>, n: nat)
    requires n < |ws| && forall j :: n < j < |ws| ==> ws[j].key != ws[n].key
    ensures LastOn(ws, ws[n].key) == Some(ws[n])
    decreases |ws|
  {
    var m := |ws| - 1;
    if n < m {
      assert ws[m].key != ws[n].key;
      LastOnIs(ws[..m], n);
    }
  }
}
