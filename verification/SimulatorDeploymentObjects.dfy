/**
  The live objects after a success of the simulator's reconciler, field by field, in terms of the resource as the
  user wrote it.
*/
module SimulatorDeploymentObjects {
  import opened Basics
  import opened Cluster
  import opened SimulatorDeployment
  import opened SimulatorDeploymentConvergence
  import opened SimulatorDeploymentReferences

  ghost predicate Succeeded(alloc: Key -> string, m: Simulator, s: Spec, a: Attempt)
  {
    m.spec == Defaulted(s) && Ran(alloc, Ops(m), a) && a.ok
  }

  predicate Ours(m: Simulator, o: Obj) { o.owner == Some(SimulatorOwner(m.name)) }

  /** A Deployment of the resource with these labels throughout. */
  predicate Runs(m: Simulator, tags: Labels, replicas: int, account: string, configMap: string, o: Obj)
  {
    && o.labels == tags && Ours(m, o) && o.replicas == Some(replicas)
    && o.content.Workload? && o.content.matches == tags && o.content.podLabels == tags
    && o.content.account == account && o.content.configMap == configMap
  }

  /** A Service of the resource with one port that selects by its own labels. */
  predicate Serves(m: Simulator, tags: Labels, port: int, target: int, o: Obj)
  {
    o.labels == tags && Ours(m, o) && o.content == Endpoint("ClusterIP", tags, [Port("http", port, target)])
  }

  predicate Configures(m: Simulator, tags: Labels, file: string, text: string, o: Obj)
  {
    o.labels == tags && Ours(m, o) && o.content == Data(map[file := text])
  }

  /** The steps of a part are met after a success, and those on missing keys have created their objects. */
  predicate Made(alloc: Key -> string, a: Attempt, op: Op)
  {
    && op.key in a.after && (op.scale ==> a.after[op.key].replicas == op.obj.replicas)
    && (op.key !in a.before ==> a.after[op.key] == Stored(alloc, op.key, op.obj))
  }

  lemma PartMade(alloc: Key -> string, m: Simulator, a: Attempt, pre: seq<Op>, part: seq<Op>, post: seq<Op>,
                 names: set<string>, n: nat)
    requires Ran(alloc, Ops(m), a) && a.ok && Ops(m) == pre + part + post && n < |part|
    requires NamedIn(pre, names) && part[n].key.name !in names
    requires forall j :: 0 <= j < n ==> part[j].key != part[n].key
    ensures Made(alloc, a, part[n])
  {
    hide Ops, Ran, NamedIn;
    MetAfter(alloc, m, a, pre, part, post, n);
    if part[n].key !in a.before { CreatedAfter(alloc, m, a, pre, part, post, names, n); }
  }

  /** A step of a successful run is met. */
  lemma MetAfter(alloc: Key -> string, m: Simulator, a: Attempt, pre: seq<Op>, part: seq<Op>, post: seq<Op>, n: nat)
    requires Ran(alloc, Ops(m), a) && a.ok && Ops(m) == pre + part + post && n < |part|
    ensures part[n].key in a.after && (part[n].scale ==> a.after[part[n].key].replicas == part[n].obj.replicas)
  {
    OpsNoRivals(m);
    hide Ops, AfterOps, OpEdits, NoRivals, ScaledKeys;
    assert (pre + part + post)[|pre| + n] == part[n];
    RunMeets(alloc, Ops(m), a.before, |pre| + n);
  }

  /** The cluster IP of a Service is all the server adds. */
  lemma StoredServes(alloc: Key -> string, m: Simulator, k: Key, tags: Labels, port: int, target: int, o: Obj)
    requires Serves(m, tags, port, target, o)
    ensures Serves(m, tags, port, target, Stored(alloc, k, o))
  {
  }

  // ---------- Arguments ----------

  /** What a simulator is started with: its fixed mode, verbosity and port, and the user's arguments last. */
  predicate SimulatorFlags(args: seq<Arg>, verbosity: int, port: int, extra: seq<string>)
  {
    && Flagged(args, "--model", Text("random")) && Flagged(args, "--mode", Text("random"))
    && (verbosity > 0 ==> Flagged(args, "--v", Number(verbosity))) && Flagged(args, "--port", Number(port))
    && |args| == |extra| + (if verbosity > 0 then 8 else 6) && args[|args| - |extra|..] == Texts(extra)
  }

  lemma SimulatorFlagged(verbosity: int, port: int, extra: seq<string>)
    ensures SimulatorFlags(SimulatorArgs(verbosity, port, extra), verbosity, port, extra)
  {
    hide Flagged;
    var head := [Text("--model"), Text("random"), Text("--mode"), Text("random")];
    var v, p := if verbosity > 0 then [Text("--v"), Number(verbosity)] else [], [Text("--port"), Number(port)];
    var u := Texts(extra);
    var args := SimulatorArgs(verbosity, port, extra);
    assert args == [] + head + (v + p + u) == head + v + (p + u) == (head + v) + p + u;
    FlagAt([], head, v + p + u, 0, "--model", Text("random"));
    FlagAt([], head, v + p + u, 2, "--mode", Text("random"));
    if verbosity > 0 { FlagAt(head, v, p + u, 0, "--v", Number(verbosity)); }
    FlagAt(head + v, p, u, 0, "--port", Number(port));
  }

  // ---------- Stages ----------

  function StageLabels(m: Simulator, stage: string): Labels
  {
    map["llm-d.ai/role" := stage, "llm-d.ai/inferenceServing" := "true", "app.kubernetes.io/name" := m.name]
  }

  function StageKeyName(stage: string): string { "ms-sim-llm-d-modelservice-" + stage }

  /** What a stage falls back to: the resource's image and verbosity, then the fixed ones. */
  predicate StageAsked(s: Spec, c: StageSpec, d: StageSpec)
  {
    && d.port == (if c.port == 0 then 8200 else c.port)
    && d.verbosity == (if c.verbosity != 0 then c.verbosity
                       else if s.legacy.verbosity != 0 then s.legacy.verbosity else 5)
    && d.pod.replicas == (if c.pod.replicas == 0 then 2 else c.pod.replicas)
    && d.pod.image == (if c.pod.image != "" then c.pod.image
                       else if s.legacy.pod.image != "" then s.legacy.pod.image
                       else "docker.io/library/llm-d-simulator:local")
    && d.pod.args == c.pod.args && d.pod.resources == c.pod.resources
  }

  lemma StageFallsBack(m: Simulator, s: Spec, c: StageSpec)
    requires m.spec == Defaulted(s)
    ensures StageAsked(s, c, DefaultStage(c, m.spec))
  {
  }

  /** The container of a stage; `d` has its defaults. */
  predicate StagePod(stage: string, d: StageSpec, c: Container)
  {
    && c.name == stage && c.image == d.pod.image && c.ports == [d.port] && c.resources == d.pod.resources
    && SimulatorFlags(c.args, d.verbosity, d.port, d.pod.args)
  }

  lemma StageObjects(m: Simulator, stage: string, d: StageSpec)
    ensures var ops, tags := StageOps(m, stage, d), StageLabels(m, stage);
            && |ops| == 2
            && ops[0].key == Key(Deployment, m.ns, StageKeyName(stage))
            && ops[1].key == Key(Service, m.ns, StageKeyName(stage))
            && Runs(m, tags, d.pod.replicas, "", "", ops[0].obj) && StagePod(stage, d, ops[0].obj.content.container)
            && Serves(m, tags, d.port, d.port, ops[1].obj)
  {
    SimulatorFlagged(d.verbosity, d.port, d.pod.args);
    hide SimulatorArgs, SimulatorFlags;
  }

  lemma StageMade(alloc: Key -> string, m: Simulator, a: Attempt, stage: string)
    requires Ran(alloc, Ops(m), a) && a.ok && stage in {"prefill", "decode"} && HasStage(StageOf(m, stage))
    ensures var ops := StageOps(m, stage, DefaultStage(StageOf(m, stage).value, m.spec));
            |ops| == 2 && Made(alloc, a, ops[0]) && Made(alloc, a, ops[1])
  {
    hide Ran, Ops, StageOps, DefaultStage, Made, StageOf, StageName;
    var d := DefaultStage(StageOf(m, stage).value, m.spec);
    StageKey(m, stage, d);
    var pre, post, names := StagePlace(m, stage);
    PartMade(alloc, m, a, pre, StageOps(m, stage, d), post, names, 0);
    PartMade(alloc, m, a, pre, StageOps(m, stage, d), post, names, 1);
  }

  /**
    A stage's Deployment has the replicas asked for, whether it was there or not; if it was not, it and its Service
    are as the user wrote them, with the fall-backs named above.
  */
  lemma StageInstalled(alloc: Key -> string, m: Simulator, s: Spec, a: Attempt, stage: string)
    requires Succeeded(alloc, m, s, a) && stage in {"prefill", "decode"} && On(StageOf(m, stage))
    ensures var tags := StageLabels(m, stage);
            var dep, svc := Key(Deployment, m.ns, StageKeyName(stage)), Key(Service, m.ns, StageKeyName(stage));
            exists d :: StageAsked(s, StageOf(m, stage).value, d)
              && dep in a.after && svc in a.after && a.after[dep].replicas == Some(d.pod.replicas)
              && (dep !in a.before ==>
                    Runs(m, tags, d.pod.replicas, "", "", a.after[dep])
                    && StagePod(stage, d, a.after[dep].content.container))
              && (svc !in a.before ==> Serves(m, tags, d.port, d.port, a.after[svc]))
  {
    hide Ran, Ops, Defaulted, DefaultStage, StageOps, StageLabels, StageKeyName, StageName, StagePod, StageAsked,
      Serves, Runs, StageOf;
    var c := StageOf(m, stage).value;
    var d := DefaultStage(c, m.spec);
    StageFallsBack(m, s, c);
    StageObjects(m, stage, d);
    var op := StageOps(m, stage, d)[1];
    StoredServes(alloc, m, op.key, StageLabels(m, stage), d.port, d.port, op.obj);
    StageMade(alloc, m, a, stage);
    StageKey(m, stage, d);
    assert StageAsked(s, c, d);
  }

  // ---------- The single Deployment ----------

  predicate LegacyPod(s: Spec, c: Container)
  {
    var l := s.legacy;
    var port := if l.service.port == 0 then 8200 else l.service.port;
    && c.name == "decode" && c.ports == [port] && c.resources == l.pod.resources
    && c.image == (if l.pod.image == "" then "docker.io/library/llm-d-simulator:local" else l.pod.image)
    && SimulatorFlags(c.args, if l.verbosity == 0 then 5 else l.verbosity, port, [])
  }

  function RoleLabels(m: Simulator): Labels { map["llm-d.ai/role" := "decode", "app.kubernetes.io/name" := m.name] }

  predicate LegacyDeployment(m: Simulator, s: Spec, o: Obj)
  {
    && o.labels == StageLabels(m, "decode") && Ours(m, o) && o.content.Workload?
    && o.content.matches == RoleLabels(m) && o.content.podLabels == StageLabels(m, "decode")
    && LegacyPod(s, o.content.container)
  }

  predicate LegacyService(m: Simulator, s: Spec, o: Obj)
  {
    var service := s.legacy.service;
    var port := if service.port == 0 then 8200 else service.port;
    && o.labels == map["app.kubernetes.io/name" := m.name] && Ours(m, o)
    && o.content == Endpoint(if service.svcType == "" then "ClusterIP" else service.svcType, RoleLabels(m),
                             [Port("http", port, port)])
  }

  function LegacyServiceName(s: Spec): string
  {
    if s.legacy.service.name == "" then "gaie-inference-scheduling-proxy" else s.legacy.service.name
  }

  lemma LegacyObjects(alloc: Key -> string, m: Simulator, s: Spec)
    requires m.spec == Defaulted(s)
    ensures var ops := LegacyOps(m, m.spec.legacy);
            && |ops| == 2
            && ops[0].key == Key(Deployment, m.ns, "ms-sim-" + m.name + "-decode")
            && ops[1].key == Key(Service, m.ns, LegacyServiceName(s))
            && ops[0].obj.replicas == Some(if s.legacy.pod.replicas == 0 then 2 else s.legacy.pod.replicas)
            && LegacyDeployment(m, s, ops[0].obj) && LegacyService(m, s, Stored(alloc, ops[1].key, ops[1].obj))
  {
    var l := m.spec.legacy;
    SimulatorFlagged(l.verbosity, l.service.port, []);
    hide SimulatorArgs, SimulatorFlags;
  }

  lemma LegacyMade(alloc: Key -> string, m: Simulator, a: Attempt)
    requires Ran(alloc, Ops(m), a) && a.ok && IsLegacy(m.spec)
    ensures var ops := LegacyOps(m, m.spec.legacy);
            && |ops| == 2 && ops[0].scale && Made(alloc, a, ops[0]) && ops[1].key in a.after
            && (!NameTaken(m) ==> Made(alloc, a, ops[1]))
  {
    hide Ran, LegacyOps, SupportOps, NameTaken, LegacyName, Stored;
    var part := LegacyOps(m, m.spec.legacy);
    LegacyKey(m, m.spec.legacy);
    ServingCases(m);
    assert Ops(m) == SupportOps(m) + part + [];
    SupportNamedIn(m);
    LegacyNameApart(m);
    PartMade(alloc, m, a, SupportOps(m), part, [], SUPPORT_NAMES, 0);
    MetAfter(alloc, m, a, SupportOps(m), part, [], 1);
    if part[1].key !in a.before && !NameTaken(m) { LegacyServiceStored(alloc, m, a); }
  }

  /** Without enabled stages: the single Deployment as asked for, and its Service unless its name is taken. */
  lemma LegacyInstalled(alloc: Key -> string, m: Simulator, s: Spec, a: Attempt)
    requires Succeeded(alloc, m, s, a) && !On(m.spec.prefill) && !On(m.spec.decode)
    ensures var dep, svc := Key(Deployment, m.ns, "ms-sim-" + m.name + "-decode"),
                            Key(Service, m.ns, LegacyServiceName(s));
            && dep in a.after && svc in a.after
            && a.after[dep].replicas == Some(if s.legacy.pod.replicas == 0 then 2 else s.legacy.pod.replicas)
            && (dep !in a.before ==> LegacyDeployment(m, s, a.after[dep]))
            && (svc !in a.before && !NameTaken(m) ==> LegacyService(m, s, a.after[svc]))
  {
    hide Ran, Ops, Defaulted, LegacyOps, LegacyDeployment, LegacyService, LegacyServiceName, NameTaken;
    LegacyObjects(alloc, m, s);
    LegacyKey(m, m.spec.legacy);
    LegacyMade(alloc, m, a);
  }

  lemma LegacyServiceStored(alloc: Key -> string, m: Simulator, a: Attempt)
    requires Ran(alloc, Ops(m), a) && a.ok && IsLegacy(m.spec) && !NameTaken(m)
    requires |LegacyOps(m, m.spec.legacy)| == 2 && LegacyOps(m, m.spec.legacy)[1].key !in a.before
    ensures var op := LegacyOps(m, m.spec.legacy)[1];
            op.key in a.after && a.after[op.key] == Stored(alloc, op.key, op.obj)
  {
    hide Ran, LegacyOps, SupportOps, Stored;
    LegacyKey(m, m.spec.legacy);
    ServingCases(m);
    var xs, part := SupportOps(m), LegacyOps(m, m.spec.legacy);
    assert Ops(m) == xs + part;
    var n := |xs| + 1;
    assert Ops(m)[n] == part[1];
    forall j | 0 <= j < n ensures Ops(m)[j].key != part[1].key {
      if j < |xs| { assert Ops(m)[j] == xs[j]; } else { assert Ops(m)[j] == part[0]; }
    }
    hide Ops, ServingOps;
    Creates(alloc, m, a, n);
  }

  // ---------- Gateways and EPP ----------

  /** What a gateway is started with; `g` has its defaults. */
  predicate GatewayPod(istio: bool, g: Instance, c: Container)
  {
    && c.image == g.image && c.resources == g.resources
    && if istio then
         c.name == "istio-proxy" && c.ports == [8080] && c.args == [Text("proxy"), Text("sidecar")]
       else
         && c.name == "kgateway-proxy" && c.ports == [80, 9091] && |c.args| == 7
         && c.args[0] == Text("--disable-hot-restart")
         && Flagged(c.args, "--service-node", Text("$(POD_NAME).$(POD_NAMESPACE)"))
         && Flagged(c.args, "--log-level", Text("warn"))
         && Flagged(c.args, "--component-log-level", Text("connection:warn,http:warn,upstream:warn"))
  }

  function GatewayTags(m: Simulator, istio: bool): Labels
  {
    if istio then
      map["llm-d.ai/component" := "gateway", "app.kubernetes.io/name" := m.name, "llm-d.ai/gateway-type" := "istio"]
    else map["llm-d.ai/component" := "gateway", "app.kubernetes.io/name" := m.name]
  }

  function GatewayKeyName(istio: bool): string
  {
    if istio then "infra-sim-inference-gateway-istio" else "infra-sim-inference-gateway"
  }

  predicate GatewayAsked(istio: bool, u: Instance, g: Instance)
  {
    && g.port == (if u.port == 0 then 8080 else u.port) && g.replicas == (if u.replicas == 0 then 1 else u.replicas)
    && g.resources == u.resources
    && g.image == (if u.image != "" then u.image
                   else if istio then "docker.io/istio/proxyv2:1.28.1"
                   else "cr.kgateway.dev/kgateway-dev/envoy-wrapper:v2.1.1")
  }

  lemma GatewayPodIs(g: Instance, istio: bool)
    ensures GatewayPod(istio, g, GatewayContainer(g, istio))
  {
    hide Flagged;
    if !istio {
      NodeFlag(g);
      LogFlag(g);
      ComponentFlag(g);
    }
  }

  lemma NodeFlag(g: Instance)
    ensures Flagged(GatewayContainer(g, false).args, "--service-node", Text("$(POD_NAME).$(POD_NAMESPACE)"))
  {
    hide Flagged;
    var args := GatewayContainer(g, false).args;
    assert args == [] + args + [];
    FlagAt([], args, [], 1, "--service-node", Text("$(POD_NAME).$(POD_NAMESPACE)"));
  }

  lemma LogFlag(g: Instance)
    ensures Flagged(GatewayContainer(g, false).args, "--log-level", Text("warn"))
  {
    hide Flagged;
    var args := GatewayContainer(g, false).args;
    assert args == [] + args + [];
    FlagAt([], args, [], 3, "--log-level", Text("warn"));
  }

  lemma ComponentFlag(g: Instance)
    ensures Flagged(GatewayContainer(g, false).args, "--component-log-level",
                    Text("connection:warn,http:warn,upstream:warn"))
  {
    hide Flagged;
    var args := GatewayContainer(g, false).args;
    assert args == [] + args + [];
    FlagAt([], args, [], 5, "--component-log-level", Text("connection:warn,http:warn,upstream:warn"));
  }

  lemma GatewayFallsBack(u: Instance, istio: bool)
    ensures GatewayAsked(istio, u, DefaultInstance(u, istio))
  {
  }

  lemma GatewayTagged(m: Simulator, istio: bool)
    ensures GatewayLabels(m, istio) == GatewayTags(m, istio)
    ensures Labelled(m, "llm-d.ai/component", "gateway") == GatewayTags(m, false)
    ensures GatewayName(istio) == GatewayKeyName(istio)
  {
  }

  lemma GatewayObjects(m: Simulator, name: string, g: Instance, istio: bool)
    ensures var ops, tags := InstanceOps(m, name, g, istio), GatewayTags(m, istio);
            && |ops| == 3 && ops[0].key == Key(ConfigMap, m.ns, name)
            && ops[1].key == Key(Deployment, m.ns, name) && ops[2].key == Key(Service, m.ns, name)
            && Configures(m, GatewayTags(m, false), "envoy.yaml", "envoy", ops[0].obj)
            && Runs(m, tags, g.replicas, "", if istio then "" else name, ops[1].obj)
            && GatewayPod(istio, g, ops[1].obj.content.container)
            && Serves(m, tags, g.port, 80, ops[2].obj)
  {
    GatewayPodIs(g, istio);
    GatewayTagged(m, istio);
    hide GatewayPod, GatewayContainer, GatewayTags, GatewayLabels, Labelled;
  }

  lemma GatewayMade(alloc: Key -> string, m: Simulator, a: Attempt, istio: bool)
    requires Ran(alloc, Ops(m), a) && a.ok && HasGateway(m, istio)
    ensures var ops := InstanceOps(m, GatewayName(istio), DefaultInstance(GatewayOf(m, istio).value, istio), istio);
            |ops| == 3 && Made(alloc, a, ops[0]) && Made(alloc, a, ops[1]) && Made(alloc, a, ops[2])
  {
    hide Ran, Ops, InstanceOps, DefaultInstance, Made, GatewayOf;
    var name, g := GatewayName(istio), DefaultInstance(GatewayOf(m, istio).value, istio);
    var part := InstanceOps(m, name, g, istio);
    InstanceKeys(m, name, g, istio);
    GatewayNamesApart();
    var names := if istio then {EPP_NAME, STANDARD_GATEWAY} else {EPP_NAME};
    var pre, post := GatewayPlace(m, istio);
    PartMade(alloc, m, a, pre, part, post, names, 0);
    PartMade(alloc, m, a, pre, part, post, names, 1);
    PartMade(alloc, m, a, pre, part, post, names, 2);
  }

  /** The objects of a gateway that were missing are as the user wrote them, or as the fall-backs say. */
  lemma GatewayInstalled(alloc: Key -> string, m: Simulator, s: Spec, a: Attempt, istio: bool)
    requires Succeeded(alloc, m, s, a) && HasGateway(m, istio)
    ensures var name, tags := GatewayKeyName(istio), GatewayTags(m, istio);
            var config, dep, svc := Key(ConfigMap, m.ns, name), Key(Deployment, m.ns, name), Key(Service, m.ns, name);
            && config in a.after && dep in a.after && svc in a.after
            && exists g :: GatewayAsked(istio, GatewayOf(m, istio).value, g)
                 && (config !in a.before ==>
                       Configures(m, GatewayTags(m, false), "envoy.yaml", "envoy", a.after[config]))
                 && (dep !in a.before ==>
                       && Runs(m, tags, g.replicas, "", if istio then "" else name, a.after[dep])
                       && GatewayPod(istio, g, a.after[dep].content.container))
                 && (svc !in a.before ==> Serves(m, tags, g.port, 80, a.after[svc]))
  {
    hide Ran, Ops, Defaulted, DefaultInstance, InstanceOps, GatewayPod, GatewayTags, GatewayAsked, Configures, Serves,
      Runs, GatewayName, GatewayKeyName, GatewayOf;
    var u, name, tags := GatewayOf(m, istio).value, GatewayName(istio), GatewayTags(m, istio);
    var g := DefaultInstance(u, istio);
    GatewayFallsBack(u, istio);
    GatewayTagged(m, istio);
    GatewayObjects(m, name, g, istio);
    var op := InstanceOps(m, name, g, istio)[2];
    StoredServes(alloc, m, op.key, tags, g.port, 80, op.obj);
    GatewayMade(alloc, m, a, istio);
    assert GatewayAsked(istio, u, g);
  }

  predicate EppAsked(u: EppSpec, e: EppSpec)
  {
    && e.port == (if u.port == 0 then 8100 else u.port) && e.verbosity == (if u.verbosity == 0 then 1 else u.verbosity)
    && e.pod.replicas == (if u.pod.replicas == 0 then 1 else u.pod.replicas)
    && e.pod.image == (if u.pod.image == "" then "ghcr.io/llm-d/llm-d-inference-scheduler:v0.4.0" else u.pod.image)
    && e.pod.args == u.pod.args && e.pod.resources == u.pod.resources
  }

  /** What the EPP is started with; `e` has its defaults. */
  predicate EppPod(m: Simulator, e: EppSpec, c: Container)
  {
    && c.name == "epp" && c.image == e.pod.image && c.resources == e.pod.resources
    && c.ports == [e.port, Next32(e.port), 9090]
    && Flagged(c.args, "--pool-name", Text("gaie-sim")) && Flagged(c.args, "--pool-namespace", Text(m.ns))
    && Flagged(c.args, "--pool-group", Text("inference.networking.k8s.io"))
    && Flagged(c.args, "--config-file", Text("/config/default-plugins.yaml"))
    && Flagged(c.args, "--kv-cache-usage-percentage-metric", Text("vllm:kv_cache_usage_perc"))
    && Flagged(c.args, "--grpc-port", Number(e.port)) && Flagged(c.args, "--grpc-health-port", Number(Next32(e.port)))
    && Flagged(c.args, "--v", Number(e.verbosity))
    && Text("--secure-serving=false") in c.args && Text("--tracing=false") in c.args
    && |c.args| >= |e.pod.args| && c.args[|c.args| - |e.pod.args|..] == Texts(e.pod.args)
  }

  lemma PoolFlags(m: Simulator, ys: seq<Arg>)
    ensures var args := [] + PoolArgs(m) + ys;
            && Flagged(args, "--pool-name", Text("gaie-sim")) && Flagged(args, "--pool-namespace", Text(m.ns))
            && Flagged(args, "--pool-group", Text("inference.networking.k8s.io"))
  {
    hide Flagged;
    FlagAt([], PoolArgs(m), ys, 0, "--pool-name", Text("gaie-sim"));
    FlagAt([], PoolArgs(m), ys, 2, "--pool-namespace", Text(m.ns));
    FlagAt([], PoolArgs(m), ys, 4, "--pool-group", Text("inference.networking.k8s.io"));
  }

  lemma ConfigFlags(xs: seq<Arg>, ys: seq<Arg>)
    ensures var args := xs + CONFIG_ARGS + ys;
            && Flagged(args, "--config-file", Text("/config/default-plugins.yaml"))
            && Flagged(args, "--kv-cache-usage-percentage-metric", Text("vllm:kv_cache_usage_perc"))
            && Text("--secure-serving=false") in args
  {
    hide Flagged;
    FlagAt(xs, CONFIG_ARGS, ys, 0, "--config-file", Text("/config/default-plugins.yaml"));
    FlagAt(xs, CONFIG_ARGS, ys, 2, "--kv-cache-usage-percentage-metric", Text("vllm:kv_cache_usage_perc"));
    assert (xs + CONFIG_ARGS + ys)[|xs| + 4] == CONFIG_ARGS[4];
  }

  lemma PortFlags(e: EppSpec, xs: seq<Arg>, ys: seq<Arg>)
    ensures var args := xs + PortArgs(e) + ys;
            && Flagged(args, "--grpc-port", Number(e.port))
            && Flagged(args, "--grpc-health-port", Number(Next32(e.port))) && Flagged(args, "--v", Number(e.verbosity))
            && Text("--tracing=false") in args
  {
    hide Flagged;
    FlagAt(xs, PortArgs(e), ys, 0, "--grpc-port", Number(e.port));
    FlagAt(xs, PortArgs(e), ys, 2, "--grpc-health-port", Number(Next32(e.port)));
    FlagAt(xs, PortArgs(e), ys, 4, "--v", Number(e.verbosity));
    assert (xs + PortArgs(e) + ys)[|xs| + 6] == PortArgs(e)[6];
  }

  lemma EppPodIs(m: Simulator, e: EppSpec)
    ensures EppPod(m, e, EppOps(m, e)[1].obj.content.container)
  {
    hide Flagged, PoolArgs, PortArgs, Labelled, HttpService;
    var p, q, r, u := PoolArgs(m), CONFIG_ARGS, PortArgs(e), Texts(e.pod.args);
    PoolFlags(m, q + r + u);
    ConfigFlags(p, r + u);
    PortFlags(e, p + q, u);
    FourParts(p, q, r, u);
  }

  function EppTags(m: Simulator): Labels
  {
    map["llm-d.ai/component" := "epp", "app.kubernetes.io/name" := m.name]
  }

  lemma EppObjects(m: Simulator, e: EppSpec)
    ensures var ops, tags := EppOps(m, e), EppTags(m);
            && |ops| == 3 && ops[0].key == Key(ConfigMap, m.ns, "gaie-sim-epp")
            && ops[1].key == Key(Deployment, m.ns, "gaie-sim-epp") && ops[2].key == Key(Service, m.ns, "gaie-sim-epp")
            && Configures(m, tags, "default-plugins.yaml", "default", ops[0].obj)
            && Runs(m, tags, e.pod.replicas, "gaie-sim-epp", "gaie-sim-epp", ops[1].obj)
            && EppPod(m, e, ops[1].obj.content.container)
            && Serves(m, tags, e.port, e.port, ops[2].obj)
  {
    EppPodIs(m, e);
    hide EppPod, EppArgs;
  }

  lemma EppFallsBack(u: EppSpec)
    ensures EppAsked(u, DefaultEpp(u))
  {
  }

  lemma EppMade(alloc: Key -> string, m: Simulator, a: Attempt)
    requires Ran(alloc, Ops(m), a) && a.ok && HasEpp(m.spec)
    ensures var ops := EppOps(m, DefaultEpp(m.spec.epp.value));
            |ops| == 3 && Made(alloc, a, ops[0]) && Made(alloc, a, ops[1]) && Made(alloc, a, ops[2])
  {
    hide Ran, EppOps, GatewayOps, ServingOps, DefaultEpp, Made;
    var e := DefaultEpp(m.spec.epp.value);
    EppKeys(m, e);
    var part, post := EppOps(m, e), GatewayOps(m) + ServingOps(m);
    assert Ops(m) == [] + part + post;
    PartMade(alloc, m, a, [], part, post, {}, 0);
    PartMade(alloc, m, a, [], part, post, {}, 1);
    PartMade(alloc, m, a, [], part, post, {}, 2);
  }

  /** The EPP's objects that were missing are as the user wrote them, or as the fall-backs say. */
  lemma EppInstalled(alloc: Key -> string, m: Simulator, s: Spec, a: Attempt)
    requires Succeeded(alloc, m, s, a) && m.spec.epp.Some? && m.spec.epp.value.enabled
    ensures var name, tags := "gaie-sim-epp", EppTags(m);
            var config, dep, svc := Key(ConfigMap, m.ns, name), Key(Deployment, m.ns, name), Key(Service, m.ns, name);
            && config in a.after && dep in a.after && svc in a.after
            && exists e :: EppAsked(m.spec.epp.value, e)
                 && (config !in a.before ==> Configures(m, tags, "default-plugins.yaml", "default", a.after[config]))
                 && (dep !in a.before ==>
                       && Runs(m, tags, e.pod.replicas, name, name, a.after[dep])
                       && EppPod(m, e, a.after[dep].content.container))
                 && (svc !in a.before ==> Serves(m, tags, e.port, e.port, a.after[svc]))
  {
    hide Ran, Ops, Defaulted, DefaultEpp, EppOps, EppPod, EppTags, EppAsked, Configures, Serves, Runs;
    var e := DefaultEpp(m.spec.epp.value);
    EppFallsBack(m.spec.epp.value);
    EppObjects(m, e);
    var op := EppOps(m, e)[2];
    StoredServes(alloc, m, op.key, EppTags(m), e.port, e.port, op.obj);
    EppMade(alloc, m, a);
    assert EppAsked(m.spec.epp.value, e);
  }

  // ---------- Nothing else ----------

  /** The user enabled the stage. */
  predicate On(c: Option<StageSpec>) { c.Some? && c.value.enabled }

  /** The keys a resource may touch: parts that are absent or disabled leave the cluster alone. */
  predicate Asks(m: Simulator, k: Key)
  {
    var p := m.spec;
    && k.ns == m.ns && (k.kind.ConfigMap? || k.kind.Deployment? || k.kind.Service?)
    && (|| (p.epp.Some? && p.epp.value.enabled && k.name == "gaie-sim-epp")
        || (HasGateway(m, false) && k.name == "infra-sim-inference-gateway")
        || (HasGateway(m, true) && k.name == "infra-sim-inference-gateway-istio")
        || (On(p.prefill) && !k.kind.ConfigMap? && k.name == "ms-sim-llm-d-modelservice-prefill")
        || (On(p.decode) && !k.kind.ConfigMap? && k.name == "ms-sim-llm-d-modelservice-decode")
        || (!On(p.prefill) && !On(p.decode) && k.kind.Deployment? && k.name == "ms-sim-" + m.name + "-decode")
        || (!On(p.prefill) && !On(p.decode) && k.kind.Service? && k.name == p.legacy.service.name))
  }

  predicate AllAsked(m: Simulator, ops: seq<Op>) { forall j :: 0 <= j < |ops| ==> Asks(m, ops[j].key) }

  lemma BothAsked(m: Simulator, xs: seq<Op>, ys: seq<Op>)
    requires AllAsked(m, xs) && AllAsked(m, ys)
    ensures AllAsked(m, xs + ys)
  {
    hide Asks;
  }

  lemma InstanceAsks(m: Simulator, istio: bool)
    requires m.spec.gateways.Some? && m.spec.gateways.value.enabled
    ensures AllAsked(m, OptionalInstance(m, GatewayName(istio), GatewayOf(m, istio), istio))
  {
    hide InstanceOps, DefaultInstance;
    var g := GatewayOf(m, istio);
    if g.Some? && g.value.enabled { InstanceKeys(m, GatewayName(istio), DefaultInstance(g.value, istio), istio); }
  }

  lemma GatewayAsks(m: Simulator)
    ensures AllAsked(m, GatewayOps(m))
  {
    hide OptionalInstance, AllAsked;
    if m.spec.gateways.Some? && m.spec.gateways.value.enabled {
      InstanceAsks(m, false);
      InstanceAsks(m, true);
      BothAsked(m, OptionalInstance(m, STANDARD_GATEWAY, m.spec.gateways.value.standard, false),
                OptionalInstance(m, ISTIO_GATEWAY, m.spec.gateways.value.istio, true));
    } else {
      NoneAsked(m);
    }
  }

  lemma NoneAsked(m: Simulator)
    ensures AllAsked(m, [])
  {
  }

  lemma StageAsks(m: Simulator)
    ensures AllAsked(m, OptionalStage(m, "prefill", m.spec.prefill))
    ensures AllAsked(m, OptionalStage(m, "decode", m.spec.decode))
  {
    hide StageOps, DefaultStage;
    if HasStage(m.spec.prefill) { StageKey(m, "prefill", DefaultStage(m.spec.prefill.value, m.spec)); }
    if HasStage(m.spec.decode) { StageKey(m, "decode", DefaultStage(m.spec.decode.value, m.spec)); }
  }

  lemma OpsAsked(m: Simulator)
    ensures AllAsked(m, Ops(m))
  {
    GatewayAsks(m);
    StageAsks(m);
    hide EppOps, DefaultEpp, LegacyOps, GatewayOps, OptionalStage;
    var epp := if HasEpp(m.spec) then EppOps(m, DefaultEpp(m.spec.epp.value)) else [];
    var single := if IsLegacy(m.spec) then LegacyOps(m, m.spec.legacy) else [];
    if HasEpp(m.spec) { EppKeys(m, DefaultEpp(m.spec.epp.value)); }
    if IsLegacy(m.spec) { LegacyKey(m, m.spec.legacy); }
    assert AllAsked(m, epp) && AllAsked(m, single);
    var p, d := OptionalStage(m, "prefill", m.spec.prefill), OptionalStage(m, "decode", m.spec.decode);
    hide AllAsked;
    BothAsked(m, epp, GatewayOps(m));
    BothAsked(m, p, d);
    BothAsked(m, p + d, single);
    BothAsked(m, SupportOps(m), ServingOps(m));
  }

  /** No attempt, however it ends, touches an object of another key. */
  lemma TouchesOnlyAsked(alloc: Key -> string, m: Simulator, a: Attempt, k: Key)
    requires Ran(alloc, Ops(m), a) && !Asks(m, k)
    ensures k in a.after <==> k in a.before
    ensures k in a.before ==> a.after[k] == a.before[k]
  {
    OpsAsked(m);
    AttemptFrame(alloc, m, a, k);
    hide Ops, Ran, Asks, ScaledKeys;
    if k in a.before { ScaledAsked(alloc, m, a, k); }
  }

  lemma ScaledAsked(alloc: Key -> string, m: Simulator, a: Attempt, k: Key)
    requires Ran(alloc, Ops(m), a) && AllAsked(m, Ops(m)) && !Asks(m, k) && k in a.before
    ensures k in a.after && a.after[k] == a.before[k]
  {
    hide Ops, Asks, AfterOps, OpEdits;
    var n := Reach(alloc, Ops(m), a);
    RunFrame(alloc, Ops(m), n, a.before, k);
  }
}
