/**
  The objects a SimulatorDeployment asks for, seen together: which Services select which pods, on which
  ports they meet, and what is referred to without being created.
*/
module SimulatorDeploymentReferences {
  import opened Basics
  import opened Cluster
  import opened SimulatorDeployment
  import opened SimulatorDeploymentConvergence

  // ---------- Defaults ----------

  /** Defaults keep what the user set and are idempotent. */
  lemma DefaultsKeepUserFields(s: Spec)
    ensures var l, d := s.legacy, Defaulted(s).legacy;
            && KeepsNumber(l.pod.replicas, d.pod.replicas) && KeepsText(l.pod.image, d.pod.image)
            && KeepsNumber(l.verbosity, d.verbosity) && KeepsText(l.service.name, d.service.name)
            && KeepsNumber(l.service.port, d.service.port) && KeepsText(l.service.svcType, d.service.svcType)
            && d.pod.replicas != 0 && d.pod.image != "" && d.verbosity != 0
            && d.service.name != "" && d.service.port != 0 && d.service.svcType != ""
    ensures Defaulted(s).epp == s.epp && Defaulted(s).gateways == s.gateways
    ensures Defaulted(s).prefill == s.prefill && Defaulted(s).decode == s.decode
    ensures Defaulted(Defaulted(s)) == Defaulted(s)
  {
  }

  /** A stage's image and verbosity fall back to the resource's, then to the fixed ones. */
  lemma StageDefaultsKeepUserFields(c: StageSpec, s: Spec)
    ensures var d := DefaultStage(c, Defaulted(s));
            && d.enabled == c.enabled && d.pod.args == c.pod.args && d.pod.resources == c.pod.resources
            && KeepsNumber(c.port, d.port) && KeepsNumber(c.verbosity, d.verbosity)
            && KeepsNumber(c.pod.replicas, d.pod.replicas) && KeepsText(c.pod.image, d.pod.image)
            && (c.pod.image == "" ==> KeepsText(s.legacy.pod.image, d.pod.image))
            && (c.verbosity == 0 ==> KeepsNumber(s.legacy.verbosity, d.verbosity))
            && d.port != 0 && d.verbosity != 0 && d.pod.replicas != 0 && d.pod.image != ""
            && DefaultStage(d, Defaulted(s)) == d
  {
  }

  /** EPP defaults keep what the user set and fill in the rest: one replica, port 8100, verbosity 1. */
  lemma EppDefaultsKeepUserFields(e: EppSpec)
    ensures var d := DefaultEpp(e);
            && d.enabled == e.enabled && d.pod.args == e.pod.args && d.pod.resources == e.pod.resources
            && KeepsNumber(e.port, d.port) && KeepsNumber(e.verbosity, d.verbosity)
            && KeepsNumber(e.pod.replicas, d.pod.replicas) && KeepsText(e.pod.image, d.pod.image)
            && (e.port == 0 ==> d.port == 8100) && (e.verbosity == 0 ==> d.verbosity == 1)
            && (e.pod.replicas == 0 ==> d.pod.replicas == 1)
            && d.port != 0 && d.verbosity != 0 && d.pod.replicas != 0 && d.pod.image != ""
            && DefaultEpp(d) == d
  {
  }

  /** The same of gateways: one replica, port 8080; the two kinds of gateway get different images. */
  lemma InstanceDefaultsKeepUserFields(g: Instance, istio: bool)
    ensures var d := DefaultInstance(g, istio);
            && d.enabled == g.enabled && d.resources == g.resources && KeepsNumber(g.port, d.port)
            && KeepsNumber(g.replicas, d.replicas) && KeepsText(g.image, d.image)
            && (g.port == 0 ==> d.port == 8080) && (g.replicas == 0 ==> d.replicas == 1)
            && d.port != 0 && d.replicas != 0 && d.image != "" && DefaultInstance(d, istio) == d
    ensures g.image == "" ==> DefaultInstance(g, istio).image != DefaultInstance(g, !istio).image
  {
    var x, y := GatewayImage(true), GatewayImage(false);
    assert |x| == |"docker.io/istio/proxyv2:1.28.1"| && |y| == |"cr.kgateway.dev/kgateway-dev/envoy-wrapper:v2.1.1"|;
  }

  // ---------- What a run creates ----------

  /** The first step on a missing key creates the object it carries, and a later one does not change it. */
  lemma Creates(alloc: Key -> string, m: Simulator, a: Attempt, n: nat)
    requires Ran(alloc, Ops(m), a) && a.ok && n < |Ops(m)| && Ops(m)[n].key !in a.before
    requires forall j :: 0 <= j < n ==> Ops(m)[j].key != Ops(m)[n].key
    ensures Ops(m)[n].key in a.after && a.after[Ops(m)[n].key] == Stored(alloc, Ops(m)[n].key, Ops(m)[n].obj)
  {
    var ops := Ops(m);
    OpsNoRivals(m);
    if !ops[n].scale { UnscaledApart(m, n); }
    hide AfterOps, OpEdits, Ops, ScaledKeys, ApplyOp, Stored;
    Absent(alloc, ops, n, a.before, ops[n].key);
    var d := AfterOps(alloc, ops[..n], a.before);
    Stays(alloc, ops, n, |ops|, a.before);
    assert ops[..|ops|] == ops;
  }

  lemma {:induction false} Absent(alloc: Key -> string, ops: seq<Op>, n: nat, c: Objects, k: Key)
    requires n <= |ops| && k !in c && forall j :: 0 <= j < n ==> ops[j].key != k
    ensures k !in AfterOps(alloc, ops[..n], c)
    decreases n
  {
    if n == 0 {
    } else {
      Absent(alloc, ops, n - 1, c, k);
      assert ops[..n][..n - 1] == ops[..n - 1] && ops[..n][n - 1] == ops[n - 1];
    }
  }

  /** Once created, the object stays as created to the end of the run. */
  lemma {:induction false} Stays(alloc: Key -> string, ops: seq<Op>, n: nat, upTo: nat, c: Objects)
    requires NoRivals(ops) && n < upTo <= |ops| && ops[n].key !in AfterOps(alloc, ops[..n], c)
    requires ops[n].scale || forall j :: 0 <= j < |ops| && ops[j].scale ==> ops[j].key != ops[n].key
    ensures var d := AfterOps(alloc, ops[..upTo], c);
            ops[n].key in d && d[ops[n].key] == Stored(alloc, ops[n].key, ops[n].obj)
    decreases upTo
  {
    hide Stored;
    assert ops[..upTo][..upTo - 1] == ops[..upTo - 1] && ops[..upTo][upTo - 1] == ops[upTo - 1];
    if n + 1 < upTo {
      Stays(alloc, ops, n, upTo - 1, c);
      StoredReplicas(alloc, ops[n].key, ops[n].obj);
    }
  }

  lemma StoredReplicas(alloc: Key -> string, k: Key, o: Obj)
    ensures Stored(alloc, k, o).replicas == o.replicas
  {
  }

  /** What is not scaled does not share its key with what is. */
  lemma UnscaledApart(m: Simulator, n: nat)
    requires n < |Ops(m)| && !Ops(m)[n].scale
    ensures Ops(m)[n].key !in ScaledKeys(m)
  {
    ServiceUnlessScaled(m);
    SupportNames(m);
    LegacyNameApart(m);
    NamesApart();
    hide SupportOps, ServingOps, StageName, LegacyName;
    var xs, ys := SupportOps(m), ServingOps(m);
    if n < |xs| {
      assert Ops(m)[n] == xs[n];
    } else {
      assert Ops(m)[n] == ys[n - |xs|];
    }
  }

  lemma NamesApart()
    ensures StageName("prefill") !in {EPP_NAME, STANDARD_GATEWAY, ISTIO_GATEWAY}
    ensures StageName("decode") !in {EPP_NAME, STANDARD_GATEWAY, ISTIO_GATEWAY}
  {
    assert StageName("prefill")[0] == 'm' && StageName("decode")[0] == 'm';
    assert EPP_NAME[0] == 'g' && STANDARD_GATEWAY[0] == 'i' && ISTIO_GATEWAY[0] == 'i';
  }

  predicate SupportNamed(ops: seq<Op>)
  {
    forall j :: 0 <= j < |ops| && ops[j].key.kind.Deployment? ==>
      ops[j].key.name in {EPP_NAME, STANDARD_GATEWAY, ISTIO_GATEWAY}
  }

  lemma SupportNames(m: Simulator)
    ensures SupportNamed(SupportOps(m))
  {
    hide EppOps, InstanceOps, DefaultEpp, DefaultInstance;
    if HasEpp(m.spec) { EppKeys(m, DefaultEpp(m.spec.epp.value)); }
    if m.spec.gateways.Some? {
      var s, t := m.spec.gateways.value.standard, m.spec.gateways.value.istio;
      if s.Some? { InstanceKeys(m, STANDARD_GATEWAY, DefaultInstance(s.value, false), false); }
      if t.Some? { InstanceKeys(m, ISTIO_GATEWAY, DefaultInstance(t.value, true), true); }
    }
  }

  lemma ServiceUnlessScaled(m: Simulator)
    ensures forall j :: 0 <= j < |ServingOps(m)| && !ServingOps(m)[j].scale ==> ServingOps(m)[j].key.kind.Service?
  {
    hide StageOps, LegacyOps, DefaultStage;
    var s := m.spec;
    if HasStage(s.prefill) { StageKey(m, "prefill", DefaultStage(s.prefill.value, s)); }
    if HasStage(s.decode) { StageKey(m, "decode", DefaultStage(s.decode.value, s)); }
    LegacyKey(m, s.legacy);
  }

  lemma EppKeys(m: Simulator, e: EppSpec)
    ensures var ops := EppOps(m, e);
            |ops| == 3 && ops[0].key == Key(ConfigMap, m.ns, EPP_NAME) && ops[1].key == Key(Deployment, m.ns, EPP_NAME)
            && ops[2].key == Key(Service, m.ns, EPP_NAME)
  {
    hide EppArgs, Labelled, HttpService;
  }

  lemma InstanceKeys(m: Simulator, name: string, g: Instance, istio: bool)
    ensures var ops := InstanceOps(m, name, g, istio);
            |ops| == 3 && ops[0].key == Key(ConfigMap, m.ns, name) && ops[1].key == Key(Deployment, m.ns, name)
            && ops[2].key == Key(Service, m.ns, name)
  {
    hide Labelled, GatewayLabels, GatewayContainer, HttpService;
  }

  // ---------- Services and pods ----------

  /** The Service selects the Deployment's pods, and its target port is one the container exposes. */
  predicate Reaches(svc: Obj, deployment: Obj)
  {
    && svc.content.Endpoint? && deployment.content.Workload? && |svc.content.ports| == 1
    && Selects(svc.content.selector, deployment.content.podLabels)
    && svc.content.ports[0].target in deployment.content.container.ports
  }

  /** A Deployment manages the pods it creates. */
  predicate ManagesOwn(deployment: Obj)
  {
    deployment.content.Workload? && Selects(deployment.content.matches, deployment.content.podLabels)
  }

  /** The EPP's Service reaches the EPP, which mounts the ConfigMap created for it. */
  lemma EppReached(m: Simulator, e: EppSpec)
    ensures var ops := EppOps(m, e);
            |ops| == 3 && Reaches(ops[2].obj, ops[1].obj) && ManagesOwn(ops[1].obj)
            && ops[0].key == Key(ConfigMap, m.ns, ops[1].obj.content.configMap)
            && ops[1].obj.replicas == Some(e.pod.replicas) && ops[2].obj.content.ports[0].port == e.port
  {
    hide EppArgs;
    assert "llm-d.ai/component" in Labelled(m, "llm-d.ai/component", "epp");
  }

  /** A stage's Service reaches the stage on the port asked for, and not the other stage's pods. */
  lemma StageReached(m: Simulator, stage: string, c: StageSpec, other: string, o: StageSpec)
    requires other != stage
    ensures var ops := StageOps(m, stage, c);
            |ops| == 2 && Reaches(ops[1].obj, ops[0].obj) && ManagesOwn(ops[0].obj)
            && ops[0].obj.replicas == Some(c.pod.replicas) && ops[0].obj.content.container.image == c.pod.image
            && ops[1].obj.content.ports[0] == Port("http", c.port, c.port)
    ensures !Reaches(StageOps(m, stage, c)[1].obj, StageOps(m, other, o)[0].obj)
  {
    hide SimulatorArgs, StageName;
    assert "llm-d.ai/role" in ServingLabels(m, stage) && ServingLabels(m, stage)["llm-d.ai/role"] == stage;
    assert ServingLabels(m, other)["llm-d.ai/role"] == other;
  }

  lemma LegacyReached(m: Simulator, l: Legacy)
    ensures var ops := LegacyOps(m, l);
            |ops| == 2 && Reaches(ops[1].obj, ops[0].obj) && ManagesOwn(ops[0].obj)
            && ops[0].obj.replicas == Some(l.pod.replicas) && ops[0].obj.content.container.image == l.pod.image
            && ops[1].obj.content.ports[0] == Port("http", l.service.port, l.service.port)
  {
    hide SimulatorArgs, LegacyName;
    RoleKeys(m);
  }

  lemma RoleKeys(m: Simulator)
    ensures Selects(Labelled(m, "llm-d.ai/role", "decode"), ServingLabels(m, "decode"))
  {
    assert "llm-d.ai/role" in Labelled(m, "llm-d.ai/role", "decode");
  }

  /**
    Every gateway Service targets port 80. The Envoy container exposes it, the Istio one exposes 8080 only:
    the Service reaches its gateway exactly if it is the standard one.
  */
  lemma GatewayReachedIff(m: Simulator, name: string, g: Instance, istio: bool)
    ensures var ops := InstanceOps(m, name, g, istio);
            |ops| == 3 && ManagesOwn(ops[1].obj) && (Reaches(ops[2].obj, ops[1].obj) <==> !istio)
  {
    var ops := InstanceOps(m, name, g, istio);
    assert "llm-d.ai/component" in GatewayLabels(m, istio);
    assert ops[1].obj.content.container.ports == if istio then [8080] else [80, 9091];
    if !istio { assert [80, 9091][0] == 80; }
  }

  /** The standard gateway's selector matches the Istio gateway's pods as well, but not the other way round. */
  lemma StandardSelectsIstio(m: Simulator, g: Instance, h: Instance)
    ensures var x, y := InstanceOps(m, STANDARD_GATEWAY, g, false), InstanceOps(m, ISTIO_GATEWAY, h, true);
            && |x| == 3 && |y| == 3 && x[2].obj.content.Endpoint? && y[1].obj.content.Workload?
            && y[2].obj.content.Endpoint? && x[1].obj.content.Workload?
            && Selects(x[2].obj.content.selector, y[1].obj.content.podLabels)
            && !Selects(y[2].obj.content.selector, x[1].obj.content.podLabels)
  {
    hide GatewayContainer;
    assert "llm-d.ai/component" in GatewayLabels(m, false);
    assert "llm-d.ai/gateway-type" in GatewayLabels(m, true);
    assert |"llm-d.ai/gateway-type"| != |"llm-d.ai/component"|
      && |"llm-d.ai/gateway-type"| != |"app.kubernetes.io/name"|;
    assert "llm-d.ai/gateway-type" !in GatewayLabels(m, false);
  }

  // ---------- In the cluster ----------

  predicate NamedIn(ops: seq<Op>, names: set<string>) { forall j :: 0 <= j < |ops| ==> ops[j].key.name in names }

  /** What a step creates is in the cluster after a success, if its key was free and no earlier step names it. */
  lemma CreatedAfter(alloc: Key -> string, m: Simulator, a: Attempt, pre: seq<Op>, part: seq<Op>, post: seq<Op>,
                     names: set<string>, n: nat)
    requires Ran(alloc, Ops(m), a) && a.ok && Ops(m) == pre + part + post && n < |part|
    requires part[n].key !in a.before && NamedIn(pre, names) && part[n].key.name !in names
    requires forall j :: 0 <= j < n ==> part[j].key != part[n].key
    ensures part[n].key in a.after && a.after[part[n].key].content == part[n].obj.content
    ensures a.after[part[n].key].replicas == part[n].obj.replicas
    ensures a.after[part[n].key] == Stored(alloc, part[n].key, part[n].obj)
  {
    hide Ops, Ran;
    var ops, k := pre + part + post, |pre| + n;
    assert ops[k] == part[n];
    forall j | 0 <= j < k ensures ops[j].key != part[n].key {
      if j < |pre| { assert ops[j] == pre[j]; } else { assert ops[j] == part[j - |pre|]; }
    }
    Creates(alloc, m, a, k);
  }

  /** The live Service of a key reaches the pods of the live Deployment of a key. */
  predicate LiveReaches(d: Objects, svc: Key, deployment: Key)
  {
    svc in d && deployment in d && Reaches(d[svc], d[deployment]) && ManagesOwn(d[deployment])
  }

  lemma SameContent(d: Objects, svc: Key, deployment: Key, s: Obj, p: Obj)
    requires svc in d && deployment in d && d[svc].content == s.content && d[deployment].content == p.content
    ensures LiveReaches(d, svc, deployment) <==> Reaches(s, p) && ManagesOwn(p)
  {
  }

  function EppPart(m: Simulator): seq<Op> { if HasEpp(m.spec) then EppOps(m, DefaultEpp(m.spec.epp.value)) else [] }

  const SUPPORT_NAMES := {EPP_NAME, STANDARD_GATEWAY, ISTIO_GATEWAY}

  lemma EppNamed(m: Simulator)
    ensures NamedIn(EppPart(m), {EPP_NAME})
  {
    hide EppOps, DefaultEpp;
    if HasEpp(m.spec) { EppKeys(m, DefaultEpp(m.spec.epp.value)); }
  }

  lemma InstanceNamed(m: Simulator, name: string, g: Option<Instance>, istio: bool)
    ensures NamedIn(OptionalInstance(m, name, g, istio), {name})
  {
    hide InstanceOps, DefaultInstance;
    if g.Some? { InstanceKeys(m, name, DefaultInstance(g.value, istio), istio); }
  }

  lemma StageNamed(m: Simulator, stage: string, c: Option<StageSpec>)
    ensures NamedIn(OptionalStage(m, stage, c), {StageName(stage)})
  {
    hide StageOps, DefaultStage, StageName;
    if HasStage(c) { StageKey(m, stage, DefaultStage(c.value, m.spec)); }
  }

  lemma SupportNamedIn(m: Simulator)
    ensures NamedIn(SupportOps(m), SUPPORT_NAMES)
  {
    hide OptionalInstance, EppOps, DefaultEpp;
    EppNamed(m);
    if m.spec.gateways.Some? {
      InstanceNamed(m, STANDARD_GATEWAY, m.spec.gateways.value.standard, false);
      InstanceNamed(m, ISTIO_GATEWAY, m.spec.gateways.value.istio, true);
    }
  }

  /** The EPP's Service and Deployment, created by a success, meet in the cluster. */
  lemma EppLive(alloc: Key -> string, m: Simulator, a: Attempt)
    requires Ran(alloc, Ops(m), a) && a.ok && HasEpp(m.spec)
    requires Key(Service, m.ns, EPP_NAME) !in a.before && Key(Deployment, m.ns, EPP_NAME) !in a.before
    ensures LiveReaches(a.after, Key(Service, m.ns, EPP_NAME), Key(Deployment, m.ns, EPP_NAME))
    ensures var ops := EppOps(m, DefaultEpp(m.spec.epp.value));
            |ops| == 3 && a.after[Key(Deployment, m.ns, EPP_NAME)].content == ops[1].obj.content
  {
    hide Ran, EppOps, GatewayOps, ServingOps, DefaultEpp, Reaches, ManagesOwn;
    var e := DefaultEpp(m.spec.epp.value);
    var part := EppOps(m, e);
    EppKeys(m, e);
    EppReached(m, e);
    assert Ops(m) == [] + part + (GatewayOps(m) + ServingOps(m));
    hide Ops, LiveReaches;
    CreatedAfter(alloc, m, a, [], part, GatewayOps(m) + ServingOps(m), {}, 1);
    CreatedAfter(alloc, m, a, [], part, GatewayOps(m) + ServingOps(m), {}, 2);
    SameContent(a.after, part[2].key, part[1].key, part[2].obj, part[1].obj);
  }

  function GatewayName(istio: bool): string { if istio then ISTIO_GATEWAY else STANDARD_GATEWAY }

  function GatewayOf(m: Simulator, istio: bool): Option<Instance>
  {
    if m.spec.gateways.None? || !m.spec.gateways.value.enabled then None
    else if istio then m.spec.gateways.value.istio else m.spec.gateways.value.standard
  }

  predicate HasGateway(m: Simulator, istio: bool) { GatewayOf(m, istio).Some? && GatewayOf(m, istio).value.enabled }

  /** The steps of one gateway within the run. */
  lemma GatewayPlace(m: Simulator, istio: bool) returns (pre: seq<Op>, post: seq<Op>)
    requires HasGateway(m, istio)
    ensures Ops(m) == pre
            + InstanceOps(m, GatewayName(istio), DefaultInstance(GatewayOf(m, istio).value, istio), istio) + post
    ensures NamedIn(pre, if istio then {EPP_NAME, STANDARD_GATEWAY} else {EPP_NAME})
  {
    hide EppOps, InstanceOps, ServingOps, DefaultEpp, DefaultInstance;
    var std := OptionalInstance(m, STANDARD_GATEWAY, m.spec.gateways.value.standard, false);
    var ist := OptionalInstance(m, ISTIO_GATEWAY, m.spec.gateways.value.istio, true);
    EppNamed(m);
    InstanceNamed(m, STANDARD_GATEWAY, m.spec.gateways.value.standard, false);
    hide OptionalInstance;
    if istio {
      pre, post := EppPart(m) + std, ServingOps(m);
      assert Ops(m) == pre + ist + post;
      assert ist == InstanceOps(m, ISTIO_GATEWAY, DefaultInstance(GatewayOf(m, istio).value, istio), istio)
        by { Enabled(m, istio); }
    } else {
      pre, post := EppPart(m), ist + ServingOps(m);
      assert Ops(m) == pre + std + post;
      assert std == InstanceOps(m, STANDARD_GATEWAY, DefaultInstance(GatewayOf(m, istio).value, istio), istio)
        by { Enabled(m, istio); }
    }
  }

  lemma Enabled(m: Simulator, istio: bool)
    requires HasGateway(m, istio)
    ensures OptionalInstance(m, GatewayName(istio), GatewayOf(m, istio), istio)
         == InstanceOps(m, GatewayName(istio), DefaultInstance(GatewayOf(m, istio).value, istio), istio)
  {
    hide InstanceOps, DefaultInstance;
  }

  /** The Deployment and the Service of a gateway are in the cluster as created. */
  lemma GatewayCreated(alloc: Key -> string, m: Simulator, a: Attempt, istio: bool)
    requires Ran(alloc, Ops(m), a) && a.ok && HasGateway(m, istio)
    requires Key(Service, m.ns, GatewayName(istio)) !in a.before
    requires Key(Deployment, m.ns, GatewayName(istio)) !in a.before
    ensures var part := InstanceOps(m, GatewayName(istio), DefaultInstance(GatewayOf(m, istio).value, istio), istio);
            var svc, dep := Key(Service, m.ns, GatewayName(istio)), Key(Deployment, m.ns, GatewayName(istio));
            && |part| == 3 && svc in a.after && dep in a.after
            && a.after[svc].content == part[2].obj.content && a.after[dep].content == part[1].obj.content
  {
    hide Ran, InstanceOps, Ops, DefaultInstance;
    var name, g := GatewayName(istio), DefaultInstance(GatewayOf(m, istio).value, istio);
    var part := InstanceOps(m, name, g, istio);
    InstanceKeys(m, name, g, istio);
    GatewayNamesApart();
    var pre, post := GatewayPlace(m, istio);
    var names := if istio then {EPP_NAME, STANDARD_GATEWAY} else {EPP_NAME};
    CreatedAfter(alloc, m, a, pre, part, post, names, 1);
    CreatedAfter(alloc, m, a, pre, part, post, names, 2);
  }

  lemma GatewayNamesApart()
    ensures STANDARD_GATEWAY != EPP_NAME && ISTIO_GATEWAY !in {EPP_NAME, STANDARD_GATEWAY}
  {
    assert |ISTIO_GATEWAY| == 33 && |STANDARD_GATEWAY| == 27 && |EPP_NAME| == 12;
  }

  /**
    Every gateway Service targets port 80. The Envoy container exposes it, the Istio one exposes 8080 only: in
    the cluster the Service reaches its gateway exactly if it is the standard one.
  */
  lemma GatewayLiveIff(alloc: Key -> string, m: Simulator, a: Attempt, istio: bool)
    requires Ran(alloc, Ops(m), a) && a.ok && HasGateway(m, istio)
    requires Key(Service, m.ns, GatewayName(istio)) !in a.before
    requires Key(Deployment, m.ns, GatewayName(istio)) !in a.before
    ensures LiveReaches(a.after, Key(Service, m.ns, GatewayName(istio)), Key(Deployment, m.ns, GatewayName(istio)))
        <==> !istio
  {
    hide Ran, InstanceOps, Ops, DefaultInstance, Reaches, ManagesOwn, LiveReaches;
    var name, g := GatewayName(istio), DefaultInstance(GatewayOf(m, istio).value, istio);
    var part := InstanceOps(m, name, g, istio);
    GatewayReachedIff(m, name, g, istio);
    GatewayCreated(alloc, m, a, istio);
    SameContent(a.after, Key(Service, m.ns, name), Key(Deployment, m.ns, name), part[2].obj, part[1].obj);
  }

  /** In the cluster, too, the standard gateway's Service selects the Istio gateway's pods, and not conversely. */
  lemma StandardSelectsIstioLive(alloc: Key -> string, m: Simulator, a: Attempt)
    requires Ran(alloc, Ops(m), a) && a.ok && HasGateway(m, false) && HasGateway(m, true)
    requires forall n :: n in {STANDARD_GATEWAY, ISTIO_GATEWAY} ==>
               Key(Service, m.ns, n) !in a.before && Key(Deployment, m.ns, n) !in a.before
    ensures LiveSelects(a.after, Key(Service, m.ns, STANDARD_GATEWAY), Key(Deployment, m.ns, ISTIO_GATEWAY))
    ensures !LiveSelects(a.after, Key(Service, m.ns, ISTIO_GATEWAY), Key(Deployment, m.ns, STANDARD_GATEWAY))
  {
    hide Ran, InstanceOps, Ops, DefaultInstance, Selects;
    GatewayCreated(alloc, m, a, false);
    GatewayCreated(alloc, m, a, true);
    StandardSelectsIstio(m, DefaultInstance(GatewayOf(m, false).value, false),
                         DefaultInstance(GatewayOf(m, true).value, true));
  }

  predicate LiveSelects(d: Objects, svc: Key, deployment: Key)
  {
    && svc in d && deployment in d && d[svc].content.Endpoint? && d[deployment].content.Workload?
    && Selects(d[svc].content.selector, d[deployment].content.podLabels)
  }

  function StageOf(m: Simulator, stage: string): Option<StageSpec>
  {
    if stage == "prefill" then m.spec.prefill else m.spec.decode
  }

  /** The Deployment of a stage is in the cluster as created. */
  lemma StageCreated(alloc: Key -> string, m: Simulator, a: Attempt, stage: string)
    requires Ran(alloc, Ops(m), a) && a.ok && stage in {"prefill", "decode"} && HasStage(StageOf(m, stage))
    requires Key(Deployment, m.ns, StageName(stage)) !in a.before
    ensures var dep := Key(Deployment, m.ns, StageName(stage));
            && dep in a.after
            && a.after[dep].content == StageOps(m, stage, DefaultStage(StageOf(m, stage).value, m.spec))[0].obj.content
  {
    hide Ran, StageOps, SupportOps, LegacyOps, DefaultStage, StageName;
    var c := DefaultStage(StageOf(m, stage).value, m.spec);
    StageKey(m, stage, c);
    var pre, post, names := StagePlace(m, stage);
    hide Ops;
    CreatedAfter(alloc, m, a, pre, StageOps(m, stage, c), post, names, 0);
  }

  /** A stage's Service reaches the stage in the cluster. */
  lemma StageLive(alloc: Key -> string, m: Simulator, a: Attempt, stage: string)
    requires Ran(alloc, Ops(m), a) && a.ok && stage in {"prefill", "decode"} && HasStage(StageOf(m, stage))
    requires Key(Service, m.ns, StageName(stage)) !in a.before && Key(Deployment, m.ns, StageName(stage)) !in a.before
    ensures LiveReaches(a.after, Key(Service, m.ns, StageName(stage)), Key(Deployment, m.ns, StageName(stage)))
  {
    hide Ran, StageOps, SupportOps, LegacyOps, DefaultStage, StageName, Reaches, ManagesOwn;
    var c := DefaultStage(StageOf(m, stage).value, m.spec);
    var part := StageOps(m, stage, c);
    StageKey(m, stage, c);
    StageReached(m, stage, c, stage + "x", c);
    StageCreated(alloc, m, a, stage);
    var pre, post, names := StagePlace(m, stage);
    hide Ops, LiveReaches;
    CreatedAfter(alloc, m, a, pre, part, post, names, 1);
    SameContent(a.after, part[1].key, part[0].key, part[1].obj, part[0].obj);
  }

  lemma StagePlace(m: Simulator, stage: string) returns (pre: seq<Op>, post: seq<Op>, names: set<string>)
    requires stage in {"prefill", "decode"} && HasStage(StageOf(m, stage))
    ensures Ops(m) == pre + StageOps(m, stage, DefaultStage(StageOf(m, stage).value, m.spec)) + post
    ensures NamedIn(pre, names) && StageName(stage) !in names
  {
    hide StageOps, SupportOps, LegacyOps, DefaultStage, StageName;
    SupportNamedIn(m);
    StageNamed(m, "prefill", m.spec.prefill);
    StagesDiffer();
    NamesApart();
    assert |"prefill"| != |"decode"|;
    var p, d := OptionalStage(m, "prefill", m.spec.prefill), OptionalStage(m, "decode", m.spec.decode);
    if stage == "prefill" {
      pre, post, names := SupportOps(m), d, SUPPORT_NAMES;
      assert Ops(m) == pre + p + post;
    } else {
      pre, post, names := SupportOps(m) + p, [], SUPPORT_NAMES + {StageName("prefill")};
      assert Ops(m) == pre + d + post;
    }
  }

  /** Some Service of the EPP or of a gateway has the name the single Deployment's Service asks for. */
  predicate NameTaken(m: Simulator)
  {
    exists j :: 0 <= j < |SupportOps(m)| && SupportOps(m)[j].key == Key(Service, m.ns, m.spec.legacy.service.name)
  }

  /**
    The single Deployment's Service is created, and reaches it in the cluster, exactly if its name is not that
    of the EPP's or an enabled gateway's Service; otherwise that one is found and left as it is.
  */
  lemma LegacyLiveIff(alloc: Key -> string, m: Simulator, a: Attempt)
    requires Ran(alloc, Ops(m), a) && a.ok && IsLegacy(m.spec)
    requires Key(Service, m.ns, m.spec.legacy.service.name) !in a.before
    requires Key(Deployment, m.ns, LegacyName(m)) !in a.before
    ensures LiveReaches(a.after, Key(Service, m.ns, m.spec.legacy.service.name), Key(Deployment, m.ns, LegacyName(m)))
        <==> !NameTaken(m)
  {
    hide Ran, LegacyOps, SupportOps, LegacyName, Reaches, ManagesOwn, LiveReaches;
    var l := m.spec.legacy;
    var part := LegacyOps(m, l);
    LegacyKey(m, l);
    LegacyReached(m, l);
    ServingCases(m);
    SupportNamedIn(m);
    LegacyNameApart(m);
    assert Ops(m) == SupportOps(m) + part + [];
    hide Ops, ServingOps;
    CreatedAfter(alloc, m, a, SupportOps(m), part, [], SUPPORT_NAMES, 0);
    if NameTaken(m) {
      TakenService(alloc, m, a);
      Unreached(m, a.after);
    } else {
      LegacyServiceCreated(alloc, m, a);
      SameContent(a.after, part[1].key, part[0].key, part[1].obj, part[0].obj);
    }
  }

  lemma LegacyServiceCreated(alloc: Key -> string, m: Simulator, a: Attempt)
    requires Ran(alloc, Ops(m), a) && a.ok && IsLegacy(m.spec) && !NameTaken(m)
    requires Key(Service, m.ns, m.spec.legacy.service.name) !in a.before
    ensures var k := Key(Service, m.ns, m.spec.legacy.service.name);
            k in a.after && |LegacyOps(m, m.spec.legacy)| == 2
            && a.after[k].content == LegacyOps(m, m.spec.legacy)[1].obj.content
  {
    hide Ran, LegacyOps, SupportOps;
    LegacyKey(m, m.spec.legacy);
    ServingCases(m);
    var xs, part := SupportOps(m), LegacyOps(m, m.spec.legacy);
    assert Ops(m) == xs + part;
    var n := |xs| + 1;
    assert Ops(m)[n] == part[1];
    forall j | 0 <= j < n ensures Ops(m)[j].key != part[1].key {
      if j < |xs| { assert Ops(m)[j] == xs[j]; } else { assert Ops(m)[j] == part[0]; }
    }
    hide Ops, ServingOps;
    Creates(alloc, m, a, n);
  }

  /** Every Service of the support part selects by component. */
  predicate ByComponent(ops: seq<Op>)
  {
    forall j :: 0 <= j < |ops| && ops[j].key.kind.Service? ==>
      ops[j].obj.content.Endpoint? && "llm-d.ai/component" in ops[j].obj.content.selector
  }

  lemma EppByComponent(m: Simulator, e: EppSpec)
    ensures ByComponent(EppOps(m, e))
  {
    hide EppArgs;
  }

  lemma InstanceByComponent(m: Simulator, name: string, g: Option<Instance>, istio: bool)
    ensures ByComponent(OptionalInstance(m, name, g, istio))
  {
    hide GatewayContainer, DefaultInstance;
  }

  lemma SupportByComponent(m: Simulator)
    ensures ByComponent(SupportOps(m))
  {
    hide EppOps, OptionalInstance, DefaultEpp;
    if HasEpp(m.spec) { EppByComponent(m, DefaultEpp(m.spec.epp.value)); }
    if m.spec.gateways.Some? {
      InstanceByComponent(m, STANDARD_GATEWAY, m.spec.gateways.value.standard, false);
      InstanceByComponent(m, ISTIO_GATEWAY, m.spec.gateways.value.istio, true);
    }
  }

  lemma {:induction false} FirstOf(ops: seq<Op>, k: Key, upTo: nat) returns (n: nat)
    requires upTo <= |ops| && exists j :: 0 <= j < upTo && ops[j].key == k
    ensures n < upTo && ops[n].key == k && forall j :: 0 <= j < n ==> ops[j].key != k
    decreases upTo
  {
    if exists j :: 0 <= j < upTo - 1 && ops[j].key == k {
      n := FirstOf(ops, k, upTo - 1);
    } else {
      n := upTo - 1;
    }
  }

  lemma TakenService(alloc: Key -> string, m: Simulator, a: Attempt)
    requires Ran(alloc, Ops(m), a) && a.ok && NameTaken(m)
    requires Key(Service, m.ns, m.spec.legacy.service.name) !in a.before
    ensures var k := Key(Service, m.ns, m.spec.legacy.service.name);
            k in a.after && a.after[k].content.Endpoint? && "llm-d.ai/component" in a.after[k].content.selector
  {
    hide Ran, SupportOps, ServingOps;
    var k := Key(Service, m.ns, m.spec.legacy.service.name);
    SupportByComponent(m);
    var n := FirstOf(SupportOps(m), k, |SupportOps(m)|);
    assert Ops(m)[n] == SupportOps(m)[n];
    assert forall j :: 0 <= j < n ==> Ops(m)[j] == SupportOps(m)[j];
    hide Ops;
    Creates(alloc, m, a, n);
  }

  lemma Unreached(m: Simulator, d: Objects)
    requires var k := Key(Service, m.ns, m.spec.legacy.service.name);
             k in d && d[k].content.Endpoint? && "llm-d.ai/component" in d[k].content.selector
    requires var k := Key(Deployment, m.ns, LegacyName(m));
             k in d && d[k].content == LegacyOps(m, m.spec.legacy)[0].obj.content
    ensures !LiveReaches(d, Key(Service, m.ns, m.spec.legacy.service.name), Key(Deployment, m.ns, LegacyName(m)))
  {
    hide SimulatorArgs, LegacyName, ManagesOwn;
    NoComponent(m);
  }

  lemma NoComponent(m: Simulator)
    ensures "llm-d.ai/component" !in ServingLabels(m, "decode")
  {
    var c, r, s, n := "llm-d.ai/component", "llm-d.ai/role", "llm-d.ai/inferenceServing", "app.kubernetes.io/name";
    assert |c| == 18 && |r| == 13 && |s| == 25 && |n| == 22;
  }

  // ---------- What is not created ----------

  predicate CreatedKinds(ops: seq<Op>)
  {
    forall j :: 0 <= j < |ops| ==> ops[j].key.kind.ConfigMap? || ops[j].key.kind.Deployment? || ops[j].key.kind.Service?
  }

  lemma OpsKinds(m: Simulator)
    ensures CreatedKinds(Ops(m))
  {
    hide EppOps, InstanceOps, StageOps, LegacyOps, DefaultEpp, DefaultInstance, DefaultStage;
    var s := m.spec;
    if HasEpp(s) { EppKeys(m, DefaultEpp(s.epp.value)); }
    if s.gateways.Some? {
      var g, h := s.gateways.value.standard, s.gateways.value.istio;
      if g.Some? { InstanceKeys(m, STANDARD_GATEWAY, DefaultInstance(g.value, false), false); }
      if h.Some? { InstanceKeys(m, ISTIO_GATEWAY, DefaultInstance(h.value, true), true); }
    }
    assert CreatedKinds(SupportOps(m));
    ServiceUnlessScaled(m);
    ServingScales(m);
    hide SupportOps, ServingOps;
  }

  /** The EPP runs under a ServiceAccount no attempt creates: it is there exactly if it was there before. */
  lemma EppAccountIff(alloc: Key -> string, m: Simulator, e: EppSpec, a: Attempt)
    requires Ran(alloc, Ops(m), a)
    ensures |EppOps(m, e)| == 3 && EppOps(m, e)[1].obj.content.Workload?
    ensures var account := Key(ServiceAccount, m.ns, EppOps(m, e)[1].obj.content.account);
            account in a.after <==> account in a.before
  {
    hide AfterOps, OpEdits, Ops, EppArgs, HttpService, Labelled;
    OpsKinds(m);
    AttemptFrame(alloc, m, a, Key(ServiceAccount, m.ns, EppOps(m, e)[1].obj.content.account));
  }
}
