/**
  What a successful reconcile of a resource with all kinds supported leaves behind refers only to objects
  that are there, with matching names, namespaces, labels and ports.
*/
module SchedulerInstallReferences {
  import opened Basics
  import opened Cluster
  import opened SchedulerInstall
  import opened SchedulerInstallConvergence

  /** A success with every kind supported, for a resource with its defaults. */
  ghost predicate Succeeded(alloc: Key -> string, i: Install, a: Attempt)
  {
    Ran(alloc, PlanAt(alloc, (k: Kind) => true, i, a.before), a) && a.ok
  }

  /** The content a settled write leaves in the cluster. */
  predicate Holds(d: Objects, k: Key, content: Content) { k in d && d[k].content == content }

  lemma EppSettled(alloc: Key -> string, i: Install, a: Attempt, w: Write)
    requires Succeeded(alloc, i, a) && HasEpp(i) && w in EppWrites(i, i.spec.epp.value)
    requires Clash(i) ==> w != EppServiceWrite(i, i.spec.epp.value)
    ensures Settled(w, a.after)
  {
    hide PlanAt, Ran, EppWrites, EppServiceWrite, EppPlanOf, Settled, Clash;
    var has := (k: Kind) => true;
    RanSound(alloc, PlanAt(alloc, has, i, a.before), a);
    MainIn(alloc, has, i, a.before, w);
    ServicesIn(has, i, w);
    EppIn(i, i.spec.epp.value, w);
    SuccessSettles(alloc, has, i, a, w);
  }

  predicate HasGateway(i: Install) { i.spec.gateway.Some? && i.spec.gateway.value.enabled }

  lemma GatewayIn(i: Install)
    requires HasGateway(i) && GatewayPlan((k: Kind) => true, i).end.Done?
    ensures GatewayWrite(i, i.spec.gateway.value) in GatewayPlan((k: Kind) => true, i).writes
  {
    hide GatewayWrite;
  }

  lemma RestSettled(alloc: Key -> string, i: Install, a: Attempt, w: Write)
    requires Succeeded(alloc, i, a)
    requires w == ProxyWrite(i) || (HasRouting(i) && (w == GrantWrite(i) || w == RouteWrite(i, i.spec.routing.value)))
             || (HasRule(i) && w == RuleWrite(i, i.spec.rule.value))
             || (HasGateway(i) && w == GatewayWrite(i, i.spec.gateway.value))
    ensures Settled(w, a.after)
  {
    hide PlanAt, Ran, EppServiceWrite, ProxyWrite, GatewayWrite, GrantWrite, RouteWrite, RuleWrite, Settled;
    var has := (k: Kind) => true;
    RanSound(alloc, PlanAt(alloc, has, i, a.before), a);
    MainIn(alloc, has, i, a.before, w);
    ServicesIn(has, i, w);
    TrafficIn(has, i, w);
    if HasGateway(i) { GatewayIn(i); }
    Distinct(i);
    SuccessSettles(alloc, has, i, a, w);
  }

  lemma Distinct(i: Install)
    ensures HasEpp(i) ==> EppServiceWrite(i, i.spec.epp.value) != ProxyWrite(i)
    ensures HasEpp(i) ==> EppServiceWrite(i, i.spec.epp.value) != GrantWrite(i)
    ensures HasEpp(i) && HasRouting(i) ==> EppServiceWrite(i, i.spec.epp.value) != RouteWrite(i, i.spec.routing.value)
    ensures HasEpp(i) && HasRule(i) ==> EppServiceWrite(i, i.spec.epp.value) != RuleWrite(i, i.spec.rule.value)
    ensures HasEpp(i) && HasGateway(i) ==> EppServiceWrite(i, i.spec.epp.value) != GatewayWrite(i, i.spec.gateway.value)
  {
    hide ProxyContent, CrossLabels, HostName, RouteBackend;
    ServiceKeys(i);
  }

  lemma SettledHolds(w: Write, d: Objects)
    requires Settled(w, d)
    ensures w.key in d
    ensures w.change.content.Some? ==> Holds(d, w.key, w.change.content.value)
    ensures w.change.replicas.Some? ==> d[w.key].replicas == w.change.replicas
  {
  }

  // ---------- The EPP ----------

  /** The RoleBinding's role and subject, and the Deployment's account and configuration, are there. */
  ghost predicate EppResolves(i: Install, e: EppSpec, d: Objects)
  {
    var binding, deployment := Key(RoleBinding, i.spec.simNs, e.name), Key(Deployment, i.spec.schedNs, e.name);
    && binding in d && d[binding].content.Binding?
    && Key(Role, binding.ns, d[binding].content.role) in d
    && Key(ServiceAccount, d[binding].content.subjectNs, d[binding].content.subject) in d
    && deployment in d && d[deployment].content.Workload?
    && Key(ServiceAccount, deployment.ns, d[deployment].content.account) in d
    && Holds(d, Key(ConfigMap, deployment.ns, d[deployment].content.configMap),
             Data(map["epp-config.yaml" := PluginsConfig(e.profile)]))
    && d[deployment].content.account == d[binding].content.subject
    && Selects(d[deployment].content.matches, d[deployment].content.podLabels)
    && d[deployment].replicas == Some(e.pod.replicas)
  }

  lemma EppReferencesResolve(alloc: Key -> string, i: Install, a: Attempt)
    requires Succeeded(alloc, i, a) && HasEpp(i)
    ensures EppResolves(i, i.spec.epp.value, a.after)
  {
    hide Succeeded, Settled, Selects, Clash, EppServiceWrite, EppContainer,
      ConfigName, PluginsConfig, CrossLabels, EppLabels;
    var e := i.spec.epp.value;
    var d := a.after;
    NotService(i, e);
    EppSettled(alloc, i, a, AccountWrite(i, e));
    EppSettled(alloc, i, a, RoleWrite(i, e));
    EppSettled(alloc, i, a, BindingWrite(i, e));
    EppSettled(alloc, i, a, ConfigWrite(i, e));
    EppSettled(alloc, i, a, DeploymentWrite(i, e));
    SettledHolds(AccountWrite(i, e), d);
    SettledHolds(RoleWrite(i, e), d);
    SettledHolds(BindingWrite(i, e), d);
    SettledHolds(ConfigWrite(i, e), d);
    SettledHolds(DeploymentWrite(i, e), d);
    EppManages(i, e);
  }

  lemma EppManages(i: Install, e: EppSpec)
    ensures Selects(EppLabels(i, e), EppLabels(i, e))
  {
    assert "app" in EppLabels(i, e);
  }

  lemma NotService(i: Install, e: EppSpec)
    ensures AccountWrite(i, e) != EppServiceWrite(i, e) && RoleWrite(i, e) != EppServiceWrite(i, e)
    ensures BindingWrite(i, e) != EppServiceWrite(i, e) && ConfigWrite(i, e) != EppServiceWrite(i, e)
    ensures DeploymentWrite(i, e) != EppServiceWrite(i, e)
  {
    hide AccountWrite, RoleWrite, BindingWrite, ConfigWrite, DeploymentWrite, EppServiceWrite;
    EppRanks(i, e);
  }

  /** The content of the EPP Service after a success: the proxy's, if they are one object. */
  function ServedBy(i: Install, e: EppSpec): Content
  {
    if Clash(i) then ProxyContent(i.spec.proxy)
    else Endpoint("ClusterIP", map["app" := e.name], [Port("grpc", e.port, 9002)])
  }

  lemma EppServiceContent(alloc: Key -> string, i: Install, a: Attempt)
    requires Succeeded(alloc, i, a) && HasEpp(i)
    ensures Holds(a.after, EppServiceKey(i, i.spec.epp.value), ServedBy(i, i.spec.epp.value))
  {
    hide Succeeded, Settled, ProxyContent;
    var e := i.spec.epp.value;
    if Clash(i) {
      RestSettled(alloc, i, a, ProxyWrite(i));
      SettledHolds(ProxyWrite(i), a.after);
    } else {
      EppSettled(alloc, i, a, EppServiceWrite(i, e));
      SettledHolds(EppServiceWrite(i, e), a.after);
    }
  }

  /** The EPP Service selects the EPP pods unless it has become the proxy Service and that selects others. */
  lemma EppServiceSelectsIff(alloc: Key -> string, i: Install, a: Attempt)
    requires Succeeded(alloc, i, a) && HasEpp(i)
    ensures var e, d := i.spec.epp.value, a.after;
            && EppServiceKey(i, e) in d && d[EppServiceKey(i, e)].content.Endpoint?
            && Holds(d, DeploymentWrite(i, e).key, DeploymentWrite(i, e).change.content.value)
            && (Selects(d[EppServiceKey(i, e)].content.selector, DeploymentWrite(i, e).change.content.value.podLabels)
                <==> (!Clash(i) || Selects(i.spec.proxy.selector, EppLabels(i, e))))
  {
    hide Succeeded, Settled, Clash, EppContainer, ConfigName;
    var e := i.spec.epp.value;
    EppServiceContent(alloc, i, a);
    NotService(i, e);
    EppSettled(alloc, i, a, DeploymentWrite(i, e));
    SettledHolds(DeploymentWrite(i, e), a.after);
    EppSelected(i, e);
  }

  lemma EppSelected(i: Install, e: EppSpec)
    ensures Selects(map["app" := e.name], EppLabels(i, e))
  {
    assert "app" in map["app" := e.name] && |"app"| != |"app.kubernetes.io/name"|;
  }

  /**
    The Service's target port is 9002 whatever port the resource asks for, while the container listens on
    the port asked for: they meet exactly for port 9002. If the Service has become the proxy Service, the
    target port is the proxy's.
  */
  lemma EppServiceReachesIff(alloc: Key -> string, i: Install, a: Attempt)
    requires Succeeded(alloc, i, a) && HasEpp(i)
    ensures var e, d := i.spec.epp.value, a.after;
            var svc, deployment := EppServiceKey(i, e), Key(Deployment, i.spec.schedNs, e.name);
            && svc in d && d[svc].content.Endpoint? && |d[svc].content.ports| == 1
            && deployment in d && d[deployment].content.Workload? && |d[deployment].content.container.ports| == 3
            && (d[svc].content.ports[0].target == d[deployment].content.container.ports[0] <==>
                GrpcPort(e) == if Clash(i) then i.spec.proxy.targetPort else 9002)
  {
    hide Succeeded, Settled, Clash, EppLabels, ConfigName, EppArgs;
    var e := i.spec.epp.value;
    EppServiceContent(alloc, i, a);
    NotService(i, e);
    EppSettled(alloc, i, a, DeploymentWrite(i, e));
    SettledHolds(DeploymentWrite(i, e), a.after);
  }

  /**
    The EPP container is told to listen on the ports it exposes, to watch the pool the resource names, and
    gets the user's arguments last.
  */
  lemma EppContainerAgrees(alloc: Key -> string, i: Install, a: Attempt)
    requires Succeeded(alloc, i, a) && HasEpp(i)
    ensures var e := i.spec.epp.value;
            var deployment := Key(Deployment, i.spec.schedNs, e.name);
            && deployment in a.after && a.after[deployment].content.Workload?
            && Agrees(e, a.after[deployment].content.container)
  {
    hide Succeeded, Settled, Clash, EppServiceWrite, EppLabels, ConfigName, Agrees, EppContainer;
    var e := i.spec.epp.value;
    NotService(i, e);
    EppSettled(alloc, i, a, DeploymentWrite(i, e));
    SettledHolds(DeploymentWrite(i, e), a.after);
    ContainerAgrees(e);
  }

  predicate Agrees(e: EppSpec, c: Container)
  {
    && c.image == e.pod.image && |c.ports| == 3 && |c.args| >= |e.pod.args|
    && Flagged(c.args, "--pool-name", Text(e.poolName)) && Flagged(c.args, "--pool-namespace", Text(e.poolNs))
    && Flagged(c.args, "--grpc-port", Number(c.ports[0])) && Flagged(c.args, "--grpc-health-port", Number(c.ports[1]))
    && c.ports[0] == (if e.port == 0 then 9002 else e.port)
    && Flagged(c.args, "--v", Number(if e.verbosity == 0 then 1 else e.verbosity))
    && Flagged(c.args, "--config-file", Text("/etc/epp/epp-config.yaml"))
    && Flagged(c.args, "--pool-group", Text("inference.networking.k8s.io"))
    && Flagged(c.args, "--kv-cache-usage-percentage-metric", Text("vllm:kv_cache_usage_perc"))
    && Text("--secure-serving=false") in c.args && Text("--tracing=false") in c.args
    && c.args[|c.args| - |e.pod.args|..] == Texts(e.pod.args)
  }

  lemma PoolFlags(e: EppSpec, ys: seq<Arg>)
    ensures var args := [] + PoolArgs(e) + ys;
            && Flagged(args, "--pool-name", Text(e.poolName)) && Flagged(args, "--pool-namespace", Text(e.poolNs))
            && Flagged(args, "--pool-group", Text("inference.networking.k8s.io"))
  {
    hide Flagged;
    FlagAt([], PoolArgs(e), ys, 0, "--pool-name", Text(e.poolName));
    FlagAt([], PoolArgs(e), ys, 2, "--pool-namespace", Text(e.poolNs));
    FlagAt([], PoolArgs(e), ys, 4, "--pool-group", Text("inference.networking.k8s.io"));
  }

  lemma ConfigFlags(xs: seq<Arg>, ys: seq<Arg>)
    ensures var args := xs + CONFIG_ARGS + ys;
            && Flagged(args, "--config-file", Text("/etc/epp/epp-config.yaml"))
            && Flagged(args, "--kv-cache-usage-percentage-metric", Text("vllm:kv_cache_usage_perc"))
            && Text("--secure-serving=false") in args
  {
    hide Flagged;
    FlagAt(xs, CONFIG_ARGS, ys, 0, "--config-file", Text("/etc/epp/epp-config.yaml"));
    FlagAt(xs, CONFIG_ARGS, ys, 2, "--kv-cache-usage-percentage-metric", Text("vllm:kv_cache_usage_perc"));
    assert (xs + CONFIG_ARGS + ys)[|xs| + 4] == CONFIG_ARGS[4];
  }

  lemma PortFlags(e: EppSpec, xs: seq<Arg>, ys: seq<Arg>)
    ensures var args, port := xs + PortArgs(e) + ys, if e.port == 0 then 9002 else e.port;
            && Flagged(args, "--grpc-port", Number(port)) && Flagged(args, "--grpc-health-port", Number(Next32(port)))
            && Flagged(args, "--v", Number(if e.verbosity == 0 then 1 else e.verbosity))
            && Text("--tracing=false") in args
  {
    hide Flagged;
    FlagAt(xs, PortArgs(e), ys, 0, "--grpc-port", Number(GrpcPort(e)));
    FlagAt(xs, PortArgs(e), ys, 2, "--grpc-health-port", Number(Next32(GrpcPort(e))));
    FlagAt(xs, PortArgs(e), ys, 4, "--v", Number(if e.verbosity == 0 then 1 else e.verbosity));
    assert (xs + PortArgs(e) + ys)[|xs| + 6] == PortArgs(e)[6];
  }

  lemma ContainerAgrees(e: EppSpec)
    ensures Agrees(e, EppContainer(e))
  {
    hide Flagged, PoolArgs, PortArgs;
    var p, q, r, u := PoolArgs(e), CONFIG_ARGS, PortArgs(e), Texts(e.pod.args);
    PoolFlags(e, q + r + u);
    ConfigFlags(p, r + u);
    PortFlags(e, p + q, u);
    FourParts(p, q, r, u);
  }

  // ---------- The proxy Service ----------

  /** After a success the proxy Service is what the resource says, whatever it was before. */
  lemma ProxyAsSpecified(alloc: Key -> string, i: Install, s: Spec, a: Attempt)
    requires i.spec == Defaulted(i.ns, s) && Succeeded(alloc, i, a)
    ensures ProxyKey(i) in a.after && a.after[ProxyKey(i)].content.Endpoint?
    ensures var svc := a.after[ProxyKey(i)].content;
            && svc.svcType == "ClusterIP" && |svc.ports| == 1
            && svc.ports[0].port == (if s.proxy.port == 0 then 8200 else s.proxy.port)
            && svc.ports[0].target == (if s.proxy.targetPort == 0 then svc.ports[0].port else s.proxy.targetPort)
            && svc.selector == (if s.proxy.selector != map[] then s.proxy.selector
                                else map["llm-d.ai/role" := "decode", "llm-d.ai/inferenceServing" := "true"])
  {
    assert i.spec.proxy == DefaultProxy(s.proxy);
    hide Succeeded, Settled, Defaulted;
    RestSettled(alloc, i, a, ProxyWrite(i));
    SettledHolds(ProxyWrite(i), a.after);
  }

  // ---------- Routing ----------

  /** A ReferenceGrant lets routes of one namespace refer to backends in its own. */
  predicate GrantCovers(grant: Key, route: Key, b: Backend, d: Objects)
  {
    Holds(d, grant, Grant(route.ns)) && grant.ns == b.ns
  }

  /** The route's backend Service is there and has the port the route names. */
  predicate BackendResolves(b: Backend, d: Objects)
  {
    b.ServiceBackend? ==>
      var svc := Key(Service, b.ns, b.name);
      svc in d && d[svc].content.Endpoint? && |d[svc].content.ports| == 1 && d[svc].content.ports[0].port == b.port
  }

  /**
    The HTTPRoute resolves, and the grant this reconcile wrote covers its backend exactly if the backend is
    the proxy Service or a pool in the simulator namespace.
  */
  lemma RouteResolves(alloc: Key -> string, i: Install, a: Attempt)
    requires Succeeded(alloc, i, a) && HasRouting(i)
    ensures var r := i.spec.routing.value;
            var b, route := RouteBackend(i, r), RouteWrite(i, r).key;
            && Holds(a.after, route, Route(r.parent.name, r.parent.ns, b)) && BackendResolves(b, a.after)
            && (GrantCovers(GrantWrite(i).key, route, b, a.after) <==> (b.ServiceBackend? || b.ns == i.spec.simNs))
  {
    hide Succeeded, Settled, Clash, CrossLabels;
    var r := i.spec.routing.value;
    RestSettled(alloc, i, a, ProxyWrite(i));
    RestSettled(alloc, i, a, GrantWrite(i));
    RestSettled(alloc, i, a, RouteWrite(i, r));
    SettledHolds(ProxyWrite(i), a.after);
    SettledHolds(GrantWrite(i), a.after);
    SettledHolds(RouteWrite(i, r), a.after);
  }

  /** A route whose parent the user left open is attached to the Gateway this reconcile wrote. */
  lemma DefaultParentResolves(alloc: Key -> string, i: Install, s: Spec, a: Attempt)
    requires i.spec == Defaulted(i.ns, s) && Succeeded(alloc, i, a) && HasRouting(i) && HasGateway(i)
    requires s.routing.value.parent == GatewayRef("", "")
    ensures var r := i.spec.routing.value;
            var parent := Key(Gateway, r.parent.ns, r.parent.name);
            parent in a.after && parent == GatewayWrite(i, i.spec.gateway.value).key
  {
    var g := i.spec.gateway.value;
    assert i.spec.routing.value.parent == DefaultParent(GatewayRef("", ""), i.spec.gateway, i.spec.schedNs);
    hide Succeeded, Settled, Clash, Defaulted;
    RestSettled(alloc, i, a, GatewayWrite(i, g));
    SettledHolds(GatewayWrite(i, g), a.after);
  }

  // ---------- Istio ----------

  lemma RuleResolves(alloc: Key -> string, i: Install, a: Attempt)
    requires Succeeded(alloc, i, a) && HasRule(i)
    ensures var rule := RuleWrite(i, i.spec.rule.value).key;
            && rule in a.after && a.after[rule].content.Balancing? && ProxyKey(i) in a.after
            && a.after[rule].content.host == HostName(ProxyKey(i).name, ProxyKey(i).ns) && rule.ns == ProxyKey(i).ns
  {
    hide Succeeded, Settled, Clash, CrossLabels, HostName;
    RestSettled(alloc, i, a, RuleWrite(i, i.spec.rule.value));
    RestSettled(alloc, i, a, ProxyWrite(i));
    SettledHolds(RuleWrite(i, i.spec.rule.value), a.after);
    SettledHolds(ProxyWrite(i), a.after);
  }

  /**
    The EnvoyFilter sends to the cluster IP of the EPP Service that is in the cluster, and to a port of that
    Service unless the proxy has taken the Service over with another port.
  */
  lemma FilterResolves(alloc: Key -> string, i: Install, a: Attempt)
    requires Succeeded(alloc, i, a) && i.spec.filter.Some? && i.spec.filter.value.enabled
    ensures HasEpp(i)
    ensures var e, d := i.spec.epp.value, a.after;
            var filter, svc := FilterKey(i, i.spec.filter.value), EppServiceKey(i, e);
            && filter in d && d[filter].content.ExtProcFilter? && svc in d && d[svc].content.Endpoint?
            && |d[svc].content.ports| == 1 && d[filter].owner == Us(i)
            && d[filter].content.address == d[svc].clusterIP && d[filter].content.address != ""
            && (d[filter].content.port == d[svc].content.ports[0].port <==> (!Clash(i) || i.spec.proxy.port == e.port))
  {
    hide Succeeded, PlanAt, Settled, Clash, Selects, CrossLabels;
    var address := FilterSettled(alloc, i, a);
    var e := i.spec.epp.value;
    var w := FilterWrite(i, e, i.spec.filter.value, address);
    SettledHolds(w, a.after);
    SettledClaims(w, a.after);
    EppServiceContent(alloc, i, a);
  }

  lemma SettledClaims(w: Write, d: Objects)
    requires Settled(w, d) && w.change.claim.Some?
    ensures d[w.key].owner == w.change.claim
  {
  }

  lemma FilterKind(i: Install, e: EppSpec, f: FilterSpec, address: string)
    ensures FilterWrite(i, e, f, address) != EppServiceWrite(i, e)
  {
    hide CrossLabels;
  }

  lemma AddressStays(alloc: Key -> string, i: Install, a: Attempt)
    requires Succeeded(alloc, i, a) && HasEpp(i) && i.spec.filter.Some?
    ensures AddressOf(alloc, a.after, EppServiceKey(i, i.spec.epp.value)) == See(alloc, i, a.before).address
  {
    hide PlanAt, After;
    var p := PlanAt(alloc, (k: Kind) => true, i, a.before);
    AddressKept(alloc, p.writes, a.before, EppServiceKey(i, i.spec.epp.value));
    PlanCoherent(alloc, (k: Kind) => true, i, a.before);
  }

  lemma FilterSettled(alloc: Key -> string, i: Install, a: Attempt) returns (address: string)
    requires Succeeded(alloc, i, a) && i.spec.filter.Some? && i.spec.filter.value.enabled
    ensures HasEpp(i) && address != ""
            && Settled(FilterWrite(i, i.spec.epp.value, i.spec.filter.value, address), a.after)
    ensures EppServiceKey(i, i.spec.epp.value) in a.after
            && a.after[EppServiceKey(i, i.spec.epp.value)].clusterIP == address
  {
    hide PlanAt, Ran, FilterWrite, EppServiceWrite, Settled, Clash, MainPlan;
    var has := (k: Kind) => true;
    var seen := See(alloc, i, a.before);
    RanSound(alloc, PlanAt(alloc, has, i, a.before), a);
    MainIn(alloc, has, i, a.before, ProxyWrite(i));
    var e, f := i.spec.epp.value, i.spec.filter.value;
    address := seen.address;
    var w := FilterWrite(i, e, f, address);
    MainIn(alloc, has, i, a.before, w);
    FilterKind(i, e, f, address);
    SuccessSettles(alloc, has, i, a, w);
    AddressStays(alloc, i, a);
    EppServiceContent(alloc, i, a);
  }
}
