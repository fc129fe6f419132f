/**
  The SimulatorDeployment resource: its defaults, the objects one reconcile asks for, and what repeated and
  broken-off reconciles make of the cluster.
*/
module SimulatorDeployment {
  import opened Basics
  import opened Cluster

  datatype ServiceSpec = ServiceSpec(name: string, port: int, svcType: string)

  datatype EppSpec = EppSpec(enabled: bool, port: int, verbosity: int, pod: PodSpec)

  datatype Instance = Instance(enabled: bool, port: int, replicas: int, image: string, resources: string)

  datatype GatewaysSpec = GatewaysSpec(enabled: bool, standard: Option<Instance>, istio: Option<Instance>)

  datatype StageSpec = StageSpec(enabled: bool, port: int, verbosity: int, pod: PodSpec)

  /** The single-Deployment fields of the resource, `pod.args` unused. */
  datatype Legacy = Legacy(pod: PodSpec, verbosity: int, service: ServiceSpec)

  datatype Spec = Spec(legacy: Legacy, epp: Option<EppSpec>, gateways: Option<GatewaysSpec>,
                       prefill: Option<StageSpec>, decode: Option<StageSpec>)

  datatype Simulator = Simulator(ns: string, name: string, spec: Spec)

  const LOCAL_IMAGE := "docker.io/library/llm-d-simulator:local"

  function DefaultService(s: ServiceSpec): ServiceSpec
  {
    ServiceSpec(Or(s.name, "gaie-inference-scheduling-proxy"), OrNumber(s.port, 8200), Or(s.svcType, "ClusterIP"))
  }

  function DefaultLegacy(l: Legacy): Legacy
  {
    Legacy(l.pod.(replicas := OrNumber(l.pod.replicas, 2), image := Or(l.pod.image, LOCAL_IMAGE)),
           OrNumber(l.verbosity, 5), DefaultService(l.service))
  }

  function Defaulted(s: Spec): Spec { s.(legacy := DefaultLegacy(s.legacy)) }

  /** The stage defaults; the image falls back to the resource's. */
  function DefaultStage(c: StageSpec, s: Spec): StageSpec
  {
    c.(port := OrNumber(c.port, 8200), verbosity := OrNumber(c.verbosity, s.legacy.verbosity),
       pod := c.pod.(replicas := OrNumber(c.pod.replicas, 2),
                     image := Or(c.pod.image, Or(s.legacy.pod.image, LOCAL_IMAGE))))
  }

  function DefaultEpp(e: EppSpec): EppSpec
  {
    e.(port := OrNumber(e.port, 8100), verbosity := OrNumber(e.verbosity, 1),
       pod := e.pod.(replicas := OrNumber(e.pod.replicas, 1),
                     image := Or(e.pod.image, "ghcr.io/llm-d/llm-d-inference-scheduler:v0.4.0")))
  }

  function GatewayImage(istio: bool): string
  {
    if istio then "docker.io/istio/proxyv2:1.28.1" else "cr.kgateway.dev/kgateway-dev/envoy-wrapper:v2.1.1"
  }

  function DefaultInstance(g: Instance, istio: bool): Instance
  {
    g.(port := OrNumber(g.port, 8080), replicas := OrNumber(g.replicas, 1), image := Or(g.image, GatewayImage(istio)))
  }

  // ---------- What one reconcile asks for ----------

  /** Create the object if there is none of that key; a scaled one also gets its replicas set. */
  datatype Op = Op(key: Key, obj: Obj, scale: bool)

  function Owned(m: Simulator, labels: Labels, replicas: Option<int>, content: Content): Obj
  {
    Obj(labels, Some(SimulatorOwner(m.name)), replicas, content, "", "")
  }

  function Labelled(m: Simulator, tag: string, value: string): Labels
  {
    map[tag := value, "app.kubernetes.io/name" := m.name]
  }

  function SimulatorArgs(verbosity: int, port: int, extra: seq<string>): seq<Arg>
  {
    [Text("--model"), Text("random"), Text("--mode"), Text("random")]
    + (if verbosity > 0 then [Text("--v"), Number(verbosity)] else [])
    + [Text("--port"), Number(port)] + Texts(extra)
  }

  const EPP_NAME := "gaie-sim-epp"

  function PoolArgs(m: Simulator): seq<Arg>
  {
    [Text("--pool-name"), Text("gaie-sim"), Text("--pool-namespace"), Text(m.ns),
     Text("--pool-group"), Text("inference.networking.k8s.io"), Text("--zap-encoder"), Text("json")]
  }

  const CONFIG_ARGS: seq<Arg> :=
    [Text("--config-file"), Text("/config/default-plugins.yaml"),
     Text("--kv-cache-usage-percentage-metric"), Text("vllm:kv_cache_usage_perc"), Text("--secure-serving=false")]

  function PortArgs(e: EppSpec): seq<Arg>
  {
    [Text("--grpc-port"), Number(e.port), Text("--grpc-health-port"), Number(Next32(e.port)),
     Text("--v"), Number(e.verbosity), Text("--tracing=false")]
  }

  function EppArgs(m: Simulator, e: EppSpec): seq<Arg>
  {
    PoolArgs(m) + CONFIG_ARGS + PortArgs(e) + Texts(e.pod.args)
  }

  function HttpService(labels: Labels, port: int, target: int): Content
  {
    Endpoint("ClusterIP", labels, [Port("http", port, target)])
  }

  /** `e` has its defaults. */
  function EppOps(m: Simulator, e: EppSpec): seq<Op>
  {
    var labels := Labelled(m, "llm-d.ai/component", "epp");
    var container := Container("epp", e.pod.image, EppArgs(m, e), [e.port, Next32(e.port), 9090], e.pod.resources);
    [Op(Key(ConfigMap, m.ns, EPP_NAME), Owned(m, labels, None, Data(map["default-plugins.yaml" := "default"])), false),
     Op(Key(Deployment, m.ns, EPP_NAME),
        Owned(m, labels, Some(e.pod.replicas), Workload(labels, labels, EPP_NAME, container, EPP_NAME)), false),
     Op(Key(Service, m.ns, EPP_NAME), Owned(m, labels, None, HttpService(labels, e.port, e.port)), false)]
  }

  function GatewayLabels(m: Simulator, istio: bool): Labels
  {
    var labels := Labelled(m, "llm-d.ai/component", "gateway");
    if istio then labels["llm-d.ai/gateway-type" := "istio"] else labels
  }

  function GatewayContainer(g: Instance, istio: bool): Container
  {
    if istio then Container("istio-proxy", g.image, [Text("proxy"), Text("sidecar")], [8080], g.resources)
    else Container("kgateway-proxy", g.image,
                   [Text("--disable-hot-restart"), Text("--service-node"), Text("$(POD_NAME).$(POD_NAMESPACE)"),
                    Text("--log-level"), Text("warn"), Text("--component-log-level"),
                    Text("connection:warn,http:warn,upstream:warn")],
                   [80, 9091], g.resources)
  }

  const STANDARD_GATEWAY := "infra-sim-inference-gateway"
  const ISTIO_GATEWAY := "infra-sim-inference-gateway-istio"

  /** `g` has its defaults. */
  function InstanceOps(m: Simulator, name: string, g: Instance, istio: bool): seq<Op>
  {
    var labels := GatewayLabels(m, istio);
    [Op(Key(ConfigMap, m.ns, name),
        Owned(m, Labelled(m, "llm-d.ai/component", "gateway"), None, Data(map["envoy.yaml" := "envoy"])), false),
     Op(Key(Deployment, m.ns, name),
        Owned(m, labels, Some(g.replicas),
              Workload(labels, labels, "", GatewayContainer(g, istio), if istio then "" else name)), false),
     Op(Key(Service, m.ns, name), Owned(m, labels, None, HttpService(labels, g.port, 80)), false)]
  }

  function OptionalInstance(m: Simulator, name: string, g: Option<Instance>, istio: bool): seq<Op>
  {
    if g.Some? && g.value.enabled then InstanceOps(m, name, DefaultInstance(g.value, istio), istio) else []
  }

  function GatewayOps(m: Simulator): seq<Op>
  {
    if m.spec.gateways.Some? && m.spec.gateways.value.enabled then
      OptionalInstance(m, STANDARD_GATEWAY, m.spec.gateways.value.standard, false)
      + OptionalInstance(m, ISTIO_GATEWAY, m.spec.gateways.value.istio, true)
    else []
  }

  function StageName(stage: string): string { "ms-sim-llm-d-modelservice-" + stage }

  function ServingLabels(m: Simulator, role: string): Labels
  {
    map["llm-d.ai/role" := role, "llm-d.ai/inferenceServing" := "true", "app.kubernetes.io/name" := m.name]
  }

  /** `c` has its defaults. */
  function StageOps(m: Simulator, stage: string, c: StageSpec): seq<Op>
  {
    var labels := ServingLabels(m, stage);
    var container := Container(stage, c.pod.image, SimulatorArgs(c.verbosity, c.port, c.pod.args),
                               [c.port], c.pod.resources);
    [Op(Key(Deployment, m.ns, StageName(stage)),
        Owned(m, labels, Some(c.pod.replicas), Workload(labels, labels, "", container, "")), true),
     Op(Key(Service, m.ns, StageName(stage)), Owned(m, labels, None, HttpService(labels, c.port, c.port)), false)]
  }

  predicate HasStage(c: Option<StageSpec>) { c.Some? && c.value.enabled }

  function OptionalStage(m: Simulator, stage: string, c: Option<StageSpec>): seq<Op>
  {
    if HasStage(c) then StageOps(m, stage, DefaultStage(c.value, m.spec)) else []
  }

  function LegacyName(m: Simulator): string { "ms-sim-" + m.name + "-decode" }

  function LegacyServiceOp(m: Simulator, l: Legacy): Op
  {
    Op(Key(Service, m.ns, l.service.name),
       Owned(m, map["app.kubernetes.io/name" := m.name], None,
             Endpoint(l.service.svcType, Labelled(m, "llm-d.ai/role", "decode"),
                      [Port("http", l.service.port, l.service.port)])), false)
  }

  /** The single Deployment and its Service; `l` has its defaults. */
  function LegacyOps(m: Simulator, l: Legacy): seq<Op>
  {
    var container := Container("decode", l.pod.image, SimulatorArgs(l.verbosity, l.service.port, []),
                               [l.service.port], l.pod.resources);
    [Op(Key(Deployment, m.ns, LegacyName(m)),
        Owned(m, ServingLabels(m, "decode"), Some(l.pod.replicas),
              Workload(Labelled(m, "llm-d.ai/role", "decode"), ServingLabels(m, "decode"), "", container, "")), true),
     LegacyServiceOp(m, l)]
  }

  predicate IsLegacy(s: Spec) { !HasStage(s.prefill) && !HasStage(s.decode) }

  predicate HasEpp(s: Spec) { s.epp.Some? && s.epp.value.enabled }

  function SupportOps(m: Simulator): seq<Op>
  {
    (if HasEpp(m.spec) then EppOps(m, DefaultEpp(m.spec.epp.value)) else []) + GatewayOps(m)
  }

  function ServingOps(m: Simulator): seq<Op>
  {
    OptionalStage(m, "prefill", m.spec.prefill) + OptionalStage(m, "decode", m.spec.decode)
    + if IsLegacy(m.spec) then LegacyOps(m, m.spec.legacy) else []
  }

  /** All a reconcile of `m` asks for, in order; `m.spec` has its defaults. */
  function Ops(m: Simulator): seq<Op> { SupportOps(m) + ServingOps(m) }

  // ---------- Its effect ----------

  function ApplyOp(alloc: Key -> string, op: Op, c: Objects): Objects
  {
    if op.key !in c then c[op.key := Stored(alloc, op.key, op.obj)]
    else if op.scale && c[op.key].replicas != op.obj.replicas then
      c[op.key := c[op.key].(replicas := op.obj.replicas)]
    else c
  }

  function AfterOps(alloc: Key -> string, ops: seq<Op>, c: Objects): Objects
  {
    if ops == [] then c else ApplyOp(alloc, ops[|ops| - 1], AfterOps(alloc, ops[..|ops| - 1], c))
  }

  function OpEdits(alloc: Key -> string, ops: seq<Op>, c: Objects): nat
  {
    if ops == [] then 0
    else
      var d := AfterOps(alloc, ops[..|ops| - 1], c);
      OpEdits(alloc, ops[..|ops| - 1], c) + if ApplyOp(alloc, ops[|ops| - 1], d) == d then 0 else 1
  }

  ghost predicate Partly(alloc: Key -> string, ops: seq<Op>, c: Objects, d: Objects)
  {
    exists k :: 0 <= k <= |ops| && d == AfterOps(alloc, ops[..k], c)
  }

  ghost predicate Ran(alloc: Key -> string, ops: seq<Op>, a: Attempt)
  {
    if a.ok then a.after == AfterOps(alloc, ops, a.before) && a.edits == OpEdits(alloc, ops, a.before)
    else Partly(alloc, ops, a.before, a.after)
  }

  lemma {:induction false} OpsAppend(alloc: Key -> string, xs: seq<Op>, ys: seq<Op>, c: Objects)
    ensures AfterOps(alloc, xs + ys, c) == AfterOps(alloc, ys, AfterOps(alloc, xs, c))
    ensures OpEdits(alloc, xs + ys, c) == OpEdits(alloc, xs, c) + OpEdits(alloc, ys, AfterOps(alloc, xs, c))
    decreases |ys|
  {
    hide ApplyOp;
    if ys == [] {
      assert xs + ys == xs;
    } else {
      var n := |ys| - 1;
      assert (xs + ys)[..|xs + ys| - 1] == xs + ys[..n];
      assert (xs + ys)[|xs + ys| - 1] == ys[n];
      OpsAppend(alloc, xs, ys[..n], c);
    }
  }

  lemma RanOne(alloc: Key -> string, op: Op, a: Attempt)
    requires a.after == a.before || a.after == ApplyOp(alloc, op, a.before)
    requires a.ok ==> a.after == ApplyOp(alloc, op, a.before) && a.edits == if a.after == a.before then 0 else 1
    ensures Ran(alloc, [op], a)
  {
    hide ApplyOp;
    var ops := [op];
    assert ops[..0] == [] && ops[..1] == ops;
    assert AfterOps(alloc, ops[..0], a.before) == a.before;
    assert AfterOps(alloc, ops, a.before) == ApplyOp(alloc, op, AfterOps(alloc, ops[..0], a.before));
    assert OpEdits(alloc, ops[..0], a.before) == 0;
  }

  lemma RanNone(alloc: Key -> string, ops: seq<Op>, a: Attempt)
    requires a.before == a.after && (a.ok ==> ops == [] && a.edits == 0)
    ensures Ran(alloc, ops, a)
  {
    assert AfterOps(alloc, ops[..0], a.before) == a.before;
  }

  lemma RanNext(alloc: Key -> string, xs: seq<Op>, ys: seq<Op>, a: Attempt, after: Objects, ok: bool, edits: int)
    requires Ran(alloc, xs, a)
    requires a.ok ==> Ran(alloc, ys, Attempt(a.after, after, ok, edits - a.edits))
    requires !a.ok ==> !ok && after == a.after
    ensures Ran(alloc, xs + ys, Attempt(a.before, after, ok, edits))
  {
    hide AfterOps, OpEdits;
    if a.ok {
      OpsAppend(alloc, xs, ys, a.before);
      if !ok {
        var k :| 0 <= k <= |ys| && after == AfterOps(alloc, ys[..k], a.after);
        OpsAppend(alloc, xs, ys[..k], a.before);
        assert (xs + ys)[..|xs| + k] == xs + ys[..k];
      }
    } else {
      var k :| 0 <= k <= |xs| && a.after == AfterOps(alloc, xs[..k], a.before);
      assert (xs + ys)[..k] == xs[..k];
    }
  }
}
