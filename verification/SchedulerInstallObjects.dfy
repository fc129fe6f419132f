/**
  The live objects after a success, field by field, in terms of the resource as the user wrote it and of what was
  in the cluster before.
*/
module SchedulerInstallObjects {
  import opened Basics
  import opened Cluster
  import opened SchedulerInstall
  import opened SchedulerInstallConvergence
  import opened SchedulerInstallReferences

  // ---------- What a closure leaves ----------

  /** Merged labels win over the live ones, which are kept otherwise; replaced ones are all there is. */
  ghost predicate LabelsLeft(e: LabelEdit, was: Labels, now: Labels)
  {
    match e
    case KeepLabels => now == was
    case ReplaceLabels(all) => now == all
    case MergeLabels(add) =>
      && (forall l :: l in now <==> l in was || l in add)
      && (forall l :: l in add && l in now ==> now[l] == add[l])
      && (forall l :: l in was && l in now && l !in add ==> now[l] == was[l])
  }

  /** `was` is the live object, or the one sent if there was none. */
  ghost predicate FieldsLeft(c: Change, was: Obj, now: Obj)
  {
    && LabelsLeft(c.labels, was.labels, now.labels)
    && now.owner == (if c.claim.Some? then c.claim else was.owner)
    && now.replicas == (if c.replicas.Some? then c.replicas else was.replicas)
    && now.content == (if c.content.Some? then c.content.value else was.content)
    && now.clusterIP == was.clusterIP && now.rest == was.rest
  }

  lemma MutateLeaves(w: Write, o: Obj)
    ensures FieldsLeft(w.change, o, Mutate(w, o))
  {
  }

  /** What the server holds before the closure counts: the live object, or the creating call's with a cluster IP. */
  function Start(alloc: Key -> string, i: Install, w: Write, c: Objects): Obj
  {
    if w.key in c then c[w.key]
    else
      var v := Creator(i, w);
      Obj(v.labels, v.owner, None, Nothing, if w.key.kind.Service? then alloc(w.key) else "", "")
  }

  /** A success leaves each object of the plan as its closure wants it and otherwise as it was. */
  lemma SuccessFields(alloc: Key -> string, has: Kind -> bool, i: Install, a: Attempt, w: Write)
    requires Ran(alloc, PlanAt(alloc, has, i, a.before), a) && a.ok
    requires w in PlanAt(alloc, has, i, a.before).writes
    ensures w.key in a.after && FieldsLeft(Keeper(i, w).change, Start(alloc, i, w, a.before), a.after[w.key])
  {
    SuccessObject(alloc, has, i, a, w);
    hide PlanAt, Ran, Creator, Keeper, FieldsLeft, Mutate;
    var v := Keeper(i, w);
    MutateLeaves(v, Start(alloc, i, w, a.before));
    MutateStored(alloc, v, w.key, Fresh(Creator(i, w)));
  }

  // ---------- Membership in the plan ----------

  lemma Alone(i: Install, w: Write)
    requires w.key != ProxyKey(i)
    ensures Creator(i, w) == w && Keeper(i, w) == w
  {
  }

  lemma EppFields(alloc: Key -> string, i: Install, a: Attempt, w: Write)
    requires Succeeded(alloc, i, a) && HasEpp(i) && w in EppWrites(i, i.spec.epp.value) && w.key != ProxyKey(i)
    ensures w.key in a.after && FieldsLeft(w.change, Start(alloc, i, w, a.before), a.after[w.key])
  {
    hide PlanAt, Ran, EppWrites, EppPlanOf, FieldsLeft, Start, Creator, Keeper;
    var has := (k: Kind) => true;
    RanSound(alloc, PlanAt(alloc, has, i, a.before), a);
    MainIn(alloc, has, i, a.before, w);
    ServicesIn(has, i, w);
    EppIn(i, i.spec.epp.value, w);
    Alone(i, w);
    SuccessFields(alloc, has, i, a, w);
  }

  /** An optional object of a kind the server has. */
  predicate Optional(has: Kind -> bool, i: Install, w: Write)
  {
    && has(w.key.kind)
    && (|| (HasRouting(i) && (w == GrantWrite(i) || w == RouteWrite(i, i.spec.routing.value)))
        || (HasRule(i) && w == RuleWrite(i, i.spec.rule.value))
        || (HasGateway(i) && w == GatewayWrite(i, i.spec.gateway.value)))
  }

  /** Whatever kinds the server has, a success leaves the objects asked for of each of them. */
  lemma OptionalFields(alloc: Key -> string, has: Kind -> bool, i: Install, a: Attempt, w: Write)
    requires Ran(alloc, PlanAt(alloc, has, i, a.before), a) && a.ok && Optional(has, i, w)
    ensures w.key in a.after && FieldsLeft(w.change, Start(alloc, i, w, a.before), a.after[w.key])
  {
    hide PlanAt, Ran, FieldsLeft, Start, Creator, Keeper, CrossLabels, HostName, RouteBackend;
    RanSound(alloc, PlanAt(alloc, has, i, a.before), a);
    MainIn(alloc, has, i, a.before, w);
    ServicesIn(has, i, w);
    TrafficIn(has, i, w);
    if HasGateway(i) && has(Gateway) { GatewayWrites(has, i); }
    hide GatewayWrite, GrantWrite, RouteWrite, RuleWrite;
    Alone(i, w);
    SuccessFields(alloc, has, i, a, w);
  }

  lemma GatewayWrites(has: Kind -> bool, i: Install)
    requires HasGateway(i) && has(Gateway) && GatewayPlan(has, i).end.Done?
    ensures GatewayWrite(i, i.spec.gateway.value) in GatewayPlan(has, i).writes
  {
    hide GatewayWrite;
  }

  lemma RestFields(alloc: Key -> string, i: Install, a: Attempt, w: Write)
    requires Succeeded(alloc, i, a) && Optional((k: Kind) => true, i, w)
    ensures w.key in a.after && FieldsLeft(w.change, Start(alloc, i, w, a.before), a.after[w.key])
  {
    hide PlanAt, Ran, Optional, FieldsLeft, Start;
    OptionalFields(alloc, (k: Kind) => true, i, a, w);
  }

  // ---------- The objects by name ----------

  const INSTALL_LABEL := "sim.llm-d.io/schedulerInstall"
  const NAMESPACE_LABEL := "sim.llm-d.io/schedulerNamespace"

  /** The labels the operator finds its objects in other namespaces by. */
  predicate Tagged(i: Install, l: Labels)
  {
    && INSTALL_LABEL in l && l[INSTALL_LABEL] == i.name
    && NAMESPACE_LABEL in l && l[NAMESPACE_LABEL] == i.ns
  }

  /** Other labels of a live object are the user's and stay. */
  predicate OthersKept(was: Labels, now: Labels)
  {
    forall l :: l in was && l != INSTALL_LABEL && l != NAMESPACE_LABEL ==> l in now && now[l] == was[l]
  }

  lemma MergeTags(i: Install, was: Labels, now: Labels)
    requires LabelsLeft(MergeLabels(CrossLabels(i)), was, now)
    ensures Tagged(i, now) && OthersKept(was, now)
  {
    assert INSTALL_LABEL in CrossLabels(i) && NAMESPACE_LABEL in CrossLabels(i);
  }

  /** The scheduler's namespace, as the user wrote it or open. */
  function SchedNs(i: Install, s: Spec): string { if s.schedNs == "" then i.ns else s.schedNs }

  /** The Gateway is there with the class, port and protocol asked for, or the ones named here. */
  lemma GatewayInstalled(alloc: Key -> string, i: Install, s: Spec, a: Attempt)
    requires i.spec == Defaulted(i.ns, s) && Succeeded(alloc, i, a) && HasGateway(i)
    ensures s.gateway.Some?
    ensures var g := s.gateway.value;
            var k := Key(Gateway, SchedNs(i, s),
                         if g.name == "" then "infra-inference-scheduling-inference-gateway" else g.name);
            && k in a.after && a.after[k].content.Listener?
            && a.after[k].content.className == (if g.className == "" then "istio" else g.className)
            && a.after[k].content.port == (if g.port == 0 then 80 else g.port)
            && a.after[k].content.protocol == (if g.protocol == "" then "HTTP" else g.protocol)
            && (k !in a.before ==> a.after[k].owner == Some(InstallOwner(i.name)))
  {
    hide Succeeded, LabelsLeft;
    RestFields(alloc, i, a, GatewayWrite(i, i.spec.gateway.value));
  }

  /**
    The grant admits routes of the scheduler's namespace, and carries the operator's labels whatever it carried
    before; other labels it had stay.
  */
  lemma GrantInstalled(alloc: Key -> string, i: Install, s: Spec, a: Attempt)
    requires i.spec == Defaulted(i.ns, s) && Succeeded(alloc, i, a) && HasRouting(i)
    ensures var k := Key(ReferenceGrant, s.simNs, "allow-scheduler-httproute");
            && k in a.after && a.after[k].content == Grant(SchedNs(i, s)) && Tagged(i, a.after[k].labels)
            && (k !in a.before ==> a.after[k].owner == None)
            && (k in a.before ==> OthersKept(a.before[k].labels, a.after[k].labels))
  {
    hide Succeeded, LabelsLeft, CrossLabels, OthersKept, Tagged;
    var w := GrantWrite(i);
    RestFields(alloc, i, a, w);
    MergeTags(i, Start(alloc, i, w, a.before).labels, a.after[w.key].labels);
  }

  /** The parent asked for; an open one is the Gateway of this install, if it has one. */
  function AskedParent(i: Install, s: Spec): GatewayRef
    requires s.routing.Some?
  {
    var p := s.routing.value.parent;
    GatewayRef(if p.name != "" || s.gateway.None? then p.name
               else if s.gateway.value.name == "" then "infra-inference-scheduling-inference-gateway"
               else s.gateway.value.name,
               if p.ns == "" then SchedNs(i, s) else p.ns)
  }

  lemma RoutingAsked(i: Install, s: Spec)
    requires i.spec == Defaulted(i.ns, s) && HasRouting(i)
    ensures s.routing.Some? && i.spec.schedNs == SchedNs(i, s)
    ensures var r, d := s.routing.value, i.spec.routing.value;
            && d.routeName == (if r.routeName == "" then "llm-d-inference-scheduling" else r.routeName)
            && d.parent == AskedParent(i, s)
            && RouteBackend(i, d) == if r.backendType != "InferencePool" then
                                       ServiceBackend(ProxyKey(i).name, s.simNs,
                                                      if s.proxy.port == 0 then 8200 else s.proxy.port)
                                     else AskedPool(s)
  {
  }

  /** The route leads from the parent asked for to the proxy Service, or to the pool asked for. */
  lemma RouteInstalled(alloc: Key -> string, i: Install, s: Spec, a: Attempt)
    requires i.spec == Defaulted(i.ns, s) && Succeeded(alloc, i, a) && HasRouting(i)
    ensures s.routing.Some?
    ensures var r := s.routing.value;
            var k := Key(HTTPRoute, SchedNs(i, s),
                         if r.routeName == "" then "llm-d-inference-scheduling" else r.routeName);
            && k in a.after
            && a.after[k].content ==
                 Route(AskedParent(i, s).name, AskedParent(i, s).ns,
                       if r.backendType != "InferencePool" then
                         ServiceBackend(ProxyKey(i).name, s.simNs, if s.proxy.port == 0 then 8200 else s.proxy.port)
                       else AskedPool(s))
            && (k !in a.before ==> a.after[k].owner == Some(InstallOwner(i.name)))
  {
    hide Succeeded, LabelsLeft, Defaulted, RouteBackend, AskedPool, AskedParent;
    RoutingAsked(i, s);
    RestFields(alloc, i, a, RouteWrite(i, i.spec.routing.value));
  }

  /** The pool the user named; an open name or namespace is the EPP's. */
  function AskedPool(s: Spec): Backend
    requires s.routing.Some?
  {
    var p := if s.routing.value.pool.Some? then s.routing.value.pool.value else PoolRef("", "", 0);
    var name := if p.name != "" || s.epp.None? then p.name
                else if s.epp.value.poolName == "" then "gaie-inference-scheduling" else s.epp.value.poolName;
    var ns := if p.ns != "" then p.ns
              else if s.epp.Some? && s.epp.value.poolNs != "" then s.epp.value.poolNs else s.simNs;
    PoolBackend(name, ns, if p.port == 0 then None else Some(p.port))
  }

  /** The rule balances the proxy's host by the algorithm and the limits asked for, and carries the labels. */
  lemma RuleInstalled(alloc: Key -> string, i: Install, s: Spec, a: Attempt)
    requires i.spec == Defaulted(i.ns, s) && Succeeded(alloc, i, a) && HasRule(i)
    ensures s.rule.Some?
    ensures var name := if s.proxy.name == "" then "gaie-inference-scheduling-proxy" else s.proxy.name;
            var k := Key(DestinationRule, s.simNs, name + "-lb");
            && k in a.after && a.after[k].content.Balancing? && Tagged(i, a.after[k].labels)
            && a.after[k].content.host == name + "." + s.simNs + ".svc.cluster.local"
            && a.after[k].content.algorithm == (if s.rule.value.algorithm == "" then "ROUND_ROBIN"
                                                else s.rule.value.algorithm)
            && a.after[k].content.pool == (if s.rule.value.pool.None? then Some((1, 1)) else s.rule.value.pool)
            && (k !in a.before ==> a.after[k].owner == None)
            && (k in a.before ==> OthersKept(a.before[k].labels, a.after[k].labels))
  {
    hide Succeeded, LabelsLeft, CrossLabels, OthersKept, Tagged;
    var w := RuleWrite(i, i.spec.rule.value);
    RestFields(alloc, i, a, w);
    MergeTags(i, Start(alloc, i, w, a.before).labels, a.after[w.key].labels);
  }

  /** The pods the filter is for: those asked for, or the Gateway's. */
  function AskedPods(s: Spec): Labels
    requires s.filter.Some?
  {
    if s.filter.value.selector != map[] || s.gateway.None? then s.filter.value.selector
    else map["gateway.networking.k8s.io/gateway-name" :=
               if s.gateway.value.name == "" then "infra-inference-scheduling-inference-gateway"
               else s.gateway.value.name]
  }

  lemma FilterAsked(i: Install, s: Spec)
    requires i.spec == Defaulted(i.ns, s) && s.filter.Some? && s.epp.Some?
    ensures i.spec.schedNs == SchedNs(i, s) && i.spec.filter.Some? && i.spec.epp.Some?
    ensures i.spec.filter.value.name == (if s.filter.value.name == "" then "epp-ext-proc" else s.filter.value.name)
    ensures i.spec.filter.value.enabled == s.filter.value.enabled && i.spec.filter.value.selector == AskedPods(s)
    ensures i.spec.epp.value.port == if s.epp.value.port == 0 then 9002 else s.epp.value.port
  {
  }

  /** An enabled filter has an EPP to point to, and comes last in the plan. */
  lemma FilterFields(alloc: Key -> string, i: Install, a: Attempt) returns (w: Write)
    requires Succeeded(alloc, i, a) && i.spec.filter.Some? && i.spec.filter.value.enabled
    ensures HasEpp(i) && w == FilterWrite(i, i.spec.epp.value, i.spec.filter.value, See(alloc, i, a.before).address)
    ensures w.key in a.after && FieldsLeft(w.change, Start(alloc, i, w, a.before), a.after[w.key])
    ensures i.spec.filter.value.selector != map[]
  {
    hide PlanAt, Ran, FieldsLeft, Start, See;
    var has := (k: Kind) => true;
    RanSound(alloc, PlanAt(alloc, has, i, a.before), a);
    MainIn(alloc, has, i, a.before, ProxyWrite(i));
    w := FilterWrite(i, i.spec.epp.value, i.spec.filter.value, See(alloc, i, a.before).address);
    MainIn(alloc, has, i, a.before, w);
    Alone(i, w);
    SuccessFields(alloc, has, i, a, w);
  }

  /** The filter is for the pods asked for, points to the EPP Service's port, and is the install's own. */
  lemma FilterInstalled(alloc: Key -> string, i: Install, s: Spec, a: Attempt)
    requires i.spec == Defaulted(i.ns, s) && Succeeded(alloc, i, a)
    requires s.filter.Some? && s.filter.value.enabled
    ensures s.epp.Some? && AskedPods(s) != map[]
    ensures var k := Key(EnvoyFilter, SchedNs(i, s),
                         if s.filter.value.name == "" then "epp-ext-proc" else s.filter.value.name);
            && k in a.after && a.after[k].content.ExtProcFilter? && Tagged(i, a.after[k].labels)
            && a.after[k].content.selector == AskedPods(s)
            && a.after[k].content.port == (if s.epp.value.port == 0 then 9002 else s.epp.value.port)
            && a.after[k].owner == Some(InstallOwner(i.name))
            && (k in a.before ==> OthersKept(a.before[k].labels, a.after[k].labels))
  {
    assert i.spec.filter.Some? && i.spec.filter.value.enabled && (i.spec.epp.Some? ==> s.epp.Some?);
    hide Succeeded, LabelsLeft, CrossLabels, OthersKept, Tagged, Defaulted, AskedPods, See;
    var w := FilterFields(alloc, i, a);
    FilterAsked(i, s);
    MergeTags(i, Start(alloc, i, w, a.before).labels, a.after[w.key].labels);
  }

  // ---------- The EPP's objects ----------

  function EppName(e: EppSpec): string { if e.name == "" then "gaie-inference-scheduling-epp" else e.name }

  lemma EppAsked(i: Install, s: Spec)
    requires i.spec == Defaulted(i.ns, s) && HasEpp(i)
    ensures s.epp.Some? && i.spec.schedNs == SchedNs(i, s) && i.spec.simNs == s.simNs
    ensures var e, d := s.epp.value, i.spec.epp.value;
            && d.name == EppName(e)
            && d.port == (if e.port == 0 then 9002 else e.port)
            && d.poolName == (if e.poolName == "" then "gaie-inference-scheduling" else e.poolName)
            && d.poolNs == (if e.poolNs == "" then s.simNs else e.poolNs)
            && d.profile == (if e.profile == "" then "default" else e.profile)
            && d.verbosity == e.verbosity && d.pod.args == e.pod.args && d.pod.resources == e.pod.resources
            && d.pod.replicas == (if e.pod.replicas == 0 then 1 else e.pod.replicas)
            && d.pod.image == (if e.pod.image == "" then "ghcr.io/llm-d/llm-d-inference-scheduler:v0.4.0"
                               else e.pod.image)
  {
  }

  /** The account in the scheduler's namespace; its role and the binding of the two in the simulators'. */
  lemma AccessInstalled(alloc: Key -> string, i: Install, s: Spec, a: Attempt)
    requires i.spec == Defaulted(i.ns, s) && Succeeded(alloc, i, a) && On(i)
    ensures s.epp.Some?
    ensures var name := EppName(s.epp.value);
            var account, role, binding := Key(ServiceAccount, SchedNs(i, s), name), Key(Role, s.simNs, name),
                                          Key(RoleBinding, s.simNs, name);
            && account in a.after && role in a.after && binding in a.after
            && a.after[role].content == Rules
            && a.after[binding].content == Binding(name, name, SchedNs(i, s))
            && (account !in a.before ==> a.after[account].owner == Some(InstallOwner(i.name)))
            && (account in a.before ==> a.after[account] == a.before[account])
            && (role !in a.before ==> Tagged(i, a.after[role].labels) && a.after[role].owner == None)
            && (binding !in a.before ==> Tagged(i, a.after[binding].labels) && a.after[binding].owner == None)
            && (role in a.before ==> a.after[role].labels == a.before[role].labels)
            && (binding in a.before ==> a.after[binding].labels == a.before[binding].labels)
  {
    hide Succeeded, Defaulted;
    EppAsked(i, s);
    var e := i.spec.epp.value;
    EppFields(alloc, i, a, AccountWrite(i, e));
    EppFields(alloc, i, a, RoleWrite(i, e));
    EppFields(alloc, i, a, BindingWrite(i, e));
    assert INSTALL_LABEL in CrossLabels(i) && NAMESPACE_LABEL in CrossLabels(i);
  }

  const NAME_LABEL := "app.kubernetes.io/name"

  /** The object carries this install's name; the other labels it had stay. */
  predicate Named(i: Install, was: Labels, now: Labels)
  {
    && NAME_LABEL in now && now[NAME_LABEL] == i.name
    && forall l :: l in was && l != NAME_LABEL ==> l in now && now[l] == was[l]
  }

  lemma MergeName(i: Install, was: Labels, now: Labels)
    requires LabelsLeft(MergeLabels(map[NAME_LABEL := i.name]), was, now)
    ensures Named(i, was, now)
  {
    assert NAME_LABEL in map[NAME_LABEL := i.name];
  }

  /** The configuration of the profile asked for; the ConfigMap's own labels stay. */
  lemma ConfigInstalled(alloc: Key -> string, i: Install, s: Spec, a: Attempt)
    requires i.spec == Defaulted(i.ns, s) && Succeeded(alloc, i, a) && On(i)
    ensures s.epp.Some?
    ensures var k, profile := Key(ConfigMap, SchedNs(i, s), EppName(s.epp.value) + "-config"), s.epp.value.profile;
            && k in a.after
            && a.after[k].content ==
                 Data(map["epp-config.yaml" :=
                            if profile == "proxy-performance" || profile == "proxy-performance-by-backend" then profile
                            else "default"])
            && Named(i, if k in a.before then a.before[k].labels else map[], a.after[k].labels)
            && (k !in a.before ==> a.after[k].owner == Some(InstallOwner(i.name)))
  {
    hide Succeeded, Defaulted, EppName, Clash, Named, LabelsLeft;
    EppAsked(i, s);
    var w := ConfigWrite(i, i.spec.epp.value);
    EppFields(alloc, i, a, w);
    MergeName(i, Start(alloc, i, w, a.before).labels, a.after[w.key].labels);
  }

  /** The Deployment has the replicas, image, resources, labels, account and configuration of the resource. */
  lemma DeploymentInstalled(alloc: Key -> string, i: Install, s: Spec, a: Attempt)
    requires i.spec == Defaulted(i.ns, s) && Succeeded(alloc, i, a) && On(i)
    ensures s.epp.Some?
    ensures var e, name := s.epp.value, EppName(s.epp.value);
            var k := Key(Deployment, SchedNs(i, s), name);
            var labels := map["app" := name, "app.kubernetes.io/name" := i.name];
            && k in a.after && a.after[k].labels == labels
            && a.after[k].replicas == Some(if e.pod.replicas == 0 then 1 else e.pod.replicas)
            && a.after[k].content.Workload?
            && a.after[k].content.matches == labels && a.after[k].content.podLabels == labels
            && a.after[k].content.account == name && a.after[k].content.configMap == name + "-config"
            && a.after[k].content.container.image ==
                 (if e.pod.image == "" then "ghcr.io/llm-d/llm-d-inference-scheduler:v0.4.0" else e.pod.image)
            && a.after[k].content.container.resources == e.pod.resources
            && a.after[k].content.container.ports ==
                 [if e.port == 0 then 9002 else e.port, Next32(if e.port == 0 then 9002 else e.port), 9090]
            && (k !in a.before ==> a.after[k].owner == Some(InstallOwner(i.name)))
  {
    hide Succeeded, Defaulted, EppArgs, EppName;
    EppAsked(i, s);
    EppFields(alloc, i, a, DeploymentWrite(i, i.spec.epp.value));
  }

  /** The EPP Service selects by the EPP's name and leads its port to 9002. */
  lemma EppServiceInstalled(alloc: Key -> string, i: Install, s: Spec, a: Attempt)
    requires i.spec == Defaulted(i.ns, s) && Succeeded(alloc, i, a) && On(i) && !Clash(i)
    ensures s.epp.Some?
    ensures var k, port := Key(Service, SchedNs(i, s), EppName(s.epp.value)), s.epp.value.port;
            && k in a.after
            && a.after[k].content == Endpoint("ClusterIP", map["app" := EppName(s.epp.value)],
                                              [Port("grpc", if port == 0 then 9002 else port, 9002)])
            && (k in a.before ==> a.after[k].labels == a.before[k].labels && a.after[k].owner == a.before[k].owner)
            && (k !in a.before ==> a.after[k].labels == map[] && a.after[k].owner == Some(InstallOwner(i.name)))
  {
    hide Succeeded, Defaulted;
    EppAsked(i, s);
    EppFields(alloc, i, a, EppServiceWrite(i, i.spec.epp.value));
  }

  /**
    The proxy Service keeps its labels and its controller; a new one is tagged and has none, if the EPP's write did
    not come first.
  */
  lemma ProxyLabels(alloc: Key -> string, i: Install, a: Attempt)
    requires Succeeded(alloc, i, a)
    ensures var k := Key(Service, i.spec.simNs, i.spec.proxy.name);
            && k in a.after
            && (k in a.before ==> a.after[k].labels == a.before[k].labels && a.after[k].owner == a.before[k].owner)
            && (k !in a.before ==>
                  if Clash(i) then a.after[k].labels == map[] && a.after[k].owner == Some(InstallOwner(i.name))
                  else Tagged(i, a.after[k].labels) && a.after[k].owner == None)
  {
    hide PlanAt, Ran;
    var has := (k: Kind) => true;
    RanSound(alloc, PlanAt(alloc, has, i, a.before), a);
    PlanHasServices(alloc, has, i, a.before);
    SuccessFields(alloc, has, i, a, ProxyWrite(i));
    assert INSTALL_LABEL in CrossLabels(i) && NAMESPACE_LABEL in CrossLabels(i);
  }

  // ---------- Nothing else ----------

  /** The user enabled the EPP. */
  predicate On(i: Install) { i.spec.epp.Some? && i.spec.epp.value.enabled }

  /**
    The keys an install may touch: sections that are absent or disabled, kinds the server does not have, an EPP in
    a foreign namespace and a route to a pool without a name leave the cluster alone.
  */
  predicate Asks(has: Kind -> bool, i: Install, k: Key)
  {
    var s := i.spec;
    && s.simNs != "" && (On(i) ==> s.schedNs == i.ns)
    && match k.kind
       case ServiceAccount => On(i) && k.ns == s.schedNs && k.name == s.epp.value.name
       case Role => On(i) && k.ns == s.simNs && k.name == s.epp.value.name
       case RoleBinding => On(i) && k.ns == s.simNs && k.name == s.epp.value.name
       case ConfigMap => On(i) && k.ns == s.schedNs && k.name == s.epp.value.name + "-config"
       case Deployment => On(i) && k.ns == s.schedNs && k.name == s.epp.value.name
       case Service =>
         || (k.ns == s.simNs && k.name == s.proxy.name)
         || (On(i) && k.ns == s.schedNs && k.name == s.epp.value.name)
       case Gateway => HasGateway(i) && has(Gateway) && k.ns == s.schedNs && k.name == s.gateway.value.name
       case HTTPRoute =>
         RouteAsked(i) && has(HTTPRoute) && k.ns == s.schedNs && k.name == s.routing.value.routeName
       case ReferenceGrant =>
         RouteAsked(i) && has(ReferenceGrant) && k.ns == s.simNs && k.name == "allow-scheduler-httproute"
       case DestinationRule => HasRule(i) && has(DestinationRule) && k.ns == s.simNs && k.name == s.proxy.name + "-lb"
       case EnvoyFilter =>
         s.filter.Some? && has(EnvoyFilter) && k.ns == s.schedNs && k.name == s.filter.value.name
  }

  predicate RouteAsked(i: Install)
  {
    HasRouting(i) && (i.spec.routing.value.backendType == "InferencePool" ==>
                        i.spec.routing.value.pool.Some? && i.spec.routing.value.pool.value.name != "")
  }

  ghost predicate AllAsked(has: Kind -> bool, i: Install, p: Plan)
  {
    && (forall j :: 0 <= j < |p.writes| ==> Asks(has, i, p.writes[j].key))
    && (p.end.Drop? ==> Asks(has, i, p.end.key))
  }

  lemma ThenAsked(has: Kind -> bool, i: Install, p: Plan, q: Plan)
    requires AllAsked(has, i, p) && AllAsked(has, i, q)
    ensures AllAsked(has, i, Then(p, q))
  {
    hide Asks;
  }

  lemma EppAsks(has: Kind -> bool, i: Install, e: EppSpec)
    requires HasEpp(i) && e == i.spec.epp.value && i.spec.simNs != "" && i.spec.schedNs == i.ns
    ensures AllAsked(has, i, EppPlanOf(i, e))
  {
    hide EppContainer, EppLabels, PluginsConfig, CrossLabels, RouteAsked;
  }

  lemma RoutingAsks(has: Kind -> bool, i: Install)
    requires i.spec.simNs != "" && (On(i) ==> i.spec.schedNs == i.ns)
    ensures AllAsked(has, i, RoutingPlan(has, i))
  {
    hide CrossLabels, HostName, RouteBackend;
  }

  lemma RuleAsks(has: Kind -> bool, i: Install)
    requires i.spec.simNs != "" && (On(i) ==> i.spec.schedNs == i.ns)
    ensures AllAsked(has, i, RulePlan(has, i))
  {
    hide CrossLabels, HostName;
  }

  lemma ServiceAsks(has: Kind -> bool, i: Install)
    requires i.spec.simNs != "" && (On(i) ==> i.spec.schedNs == i.ns)
    ensures AllAsked(has, i, GatewayPlan(has, i)) && AllAsked(has, i, Just(ProxyWrite(i)))
  {
    hide CrossLabels, ProxyContent;
  }

  lemma TrafficAsks(has: Kind -> bool, i: Install)
    requires i.spec.simNs != "" && (On(i) ==> i.spec.schedNs == i.ns)
    ensures AllAsked(has, i, TrafficPlan(has, i)) && AllAsked(has, i, GatewayPlan(has, i))
    ensures AllAsked(has, i, Just(ProxyWrite(i)))
  {
    hide Asks, AllAsked, RoutingPlan, RulePlan, GatewayPlan, ProxyWrite;
    RoutingAsks(has, i);
    RuleAsks(has, i);
    ServiceAsks(has, i);
    ThenAsked(has, i, RoutingPlan(has, i), RulePlan(has, i));
  }

  lemma FilterAsks(has: Kind -> bool, i: Install, seen: Seen)
    requires i.spec.simNs != "" && (HasEpp(i) ==> i.spec.schedNs == i.ns)
    ensures AllAsked(has, i, FilterPlan(has, i, seen))
  {
    hide CrossLabels;
  }

  lemma PlanAsks(has: Kind -> bool, i: Install, seen: Seen)
    ensures AllAsked(has, i, PlanOf(has, i, seen))
  {
    if i.spec.simNs != "" {
      if HasEpp(i) && i.spec.schedNs != i.ns {
        assert AccessPlan(i, i.spec.epp.value) == FAIL by { hide RbacPlan; }
        hide GatewayPlan, TrafficPlan, FilterPlan, ProxyWrite, WorkloadPlan, RbacPlan, EppServiceWrite, Asks;
      } else {
        hide EppPlanOf, GatewayPlan, TrafficPlan, FilterPlan, ProxyWrite, Asks, Then, AllAsked;
        TrafficAsks(has, i);
        FilterAsks(has, i, seen);
        if HasEpp(i) { EppAsks(has, i, i.spec.epp.value); } else { NothingAsked(has, i); }
        ThenAsked(has, i, EppPlan(i), GatewayPlan(has, i));
        ThenAsked(has, i, Then(EppPlan(i), GatewayPlan(has, i)), Just(ProxyWrite(i)));
        ThenAsked(has, i, ServicesPlan(has, i), TrafficPlan(has, i));
        ThenAsked(has, i, MainPlan(has, i), FilterPlan(has, i, seen));
      }
    }
  }

  lemma NothingAsked(has: Kind -> bool, i: Install)
    ensures AllAsked(has, i, NO_STEP)
  {
  }

  /** No attempt, however it ends, touches an object of another key. */
  lemma TouchesOnlyAsked(alloc: Key -> string, has: Kind -> bool, i: Install, a: Attempt, k: Key)
    requires Ran(alloc, PlanAt(alloc, has, i, a.before), a) && !Asks(has, i, k)
    ensures k in a.after <==> k in a.before
    ensures k in a.before ==> a.after[k] == a.before[k]
  {
    hide PlanOf, Ran, Asks;
    PlanAsks(has, i, See(alloc, i, a.before));
    AttemptFrame(alloc, PlanAt(alloc, has, i, a.before), a, k);
  }

  /** A disabled filter is gone after a success. */
  lemma FilterRemoved(alloc: Key -> string, has: Kind -> bool, i: Install, a: Attempt)
    requires Ran(alloc, PlanAt(alloc, has, i, a.before), a) && a.ok
    requires i.spec.filter.Some? && !i.spec.filter.value.enabled && i.spec.filter.value.name != "" && has(EnvoyFilter)
    ensures Key(EnvoyFilter, i.spec.schedNs, i.spec.filter.value.name) !in a.after
  {
    RanSound(alloc, PlanAt(alloc, has, i, a.before), a);
    MainIn(alloc, has, i, a.before, ProxyWrite(i));
    hide MainPlan, See, After;
    assert PlanAt(alloc, has, i, a.before).end == Drop(FilterKey(i, i.spec.filter.value));
  }
}
