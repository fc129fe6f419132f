/**
  Both reconcilers at work on one cluster, their API calls interleaved in any order: each acts on what it
  read last, any call may fail, and each may start over at any time.
*/
module TwoControllers {
  import opened Basics
  import opened Cluster
  import SI = SchedulerInstall
  import SC = SchedulerInstallConvergence
  import SD = SimulatorDeployment
  import SV = SimulatorDeploymentConvergence
  import SR = SchedulerInstallReferences
  import DR = SimulatorDeploymentReferences

  /** What a reconciler has read of the object it is about to write. */
  datatype Snap = Unread | Absent | Live(obj: Obj)

  /** The two resources, the server's allocation and its kinds. */
  datatype Setting = Setting(alloc: Key -> string, has: Kind -> bool, install: SI.Install, simulator: SD.Simulator)

  datatype Program = Program(pc: nat, snap: Snap)

  const START := Program(0, Unread)

  /** `seen` is what the SchedulerInstall reconcile under way reads for its EnvoyFilter. */
  datatype World = World(objs: Objects, seen: SI.Seen, install: Program, simulator: Program)

  /** A call may not land, and one that lands may be answered with an error. */
  datatype Event =
    | InstallStart(seen: SI.Seen) | InstallRead | InstallWrite(landed: bool, answered: bool) | InstallDelete
    | SimulatorStart | SimulatorRead | SimulatorWrite(landed: bool, answered: bool)

  function Look(objs: Objects, k: Key): Snap { if k in objs then Live(objs[k]) else Absent }

  /** Create needs the key to be free, Update needs it to be there. */
  predicate Accepted(objs: Objects, k: Key, snap: Snap)
  {
    if snap.Absent? then k !in objs else snap.Live? && k in objs
  }

  function Plan(t: Setting, seen: SI.Seen): SI.Plan { SI.PlanOf(t.has, t.install, seen) }

  function Advance(p: Program, done: bool): Program { if done then Program(p.pc + 1, Unread) else START }

  /** One CreateOrUpdate call after its read. */
  function WriteStep(t: Setting, s: World, w: Write, landed: bool, answered: bool): World
  {
    var snap := s.install.snap;
    if snap.Live? && w.change.claim.Some? && snap.obj.owner.Some? && snap.obj.owner != w.change.claim then
      s.(install := START)
    else if snap.Live? && Mutate(w, snap.obj) == snap.obj then
      s.(install := Advance(s.install, true))
    else
      var lands := landed && Accepted(s.objs, w.key, snap);
      var o := if snap.Live? then Mutate(w, snap.obj) else Stored(t.alloc, w.key, Mutate(w, Fresh(w)));
      s.(objs := if lands then s.objs[w.key := o] else s.objs, install := Advance(s.install, lands && answered))
  }

  /** One create-if-missing or create-or-scale after its read. */
  function OpStep(t: Setting, s: World, op: SD.Op, landed: bool, answered: bool): World
  {
    var snap := s.simulator.snap;
    if snap.Live? && !(op.scale && snap.obj.replicas != op.obj.replicas) then
      s.(simulator := Advance(s.simulator, true))
    else
      var lands := landed && Accepted(s.objs, op.key, snap);
      var o := if snap.Live? then snap.obj.(replicas := op.obj.replicas) else Stored(t.alloc, op.key, op.obj);
      s.(objs := if lands then s.objs[op.key := o] else s.objs, simulator := Advance(s.simulator, lands && answered))
  }

  function Step(t: Setting, s: World, e: Event): World
  {
    var p, ops := Plan(t, s.seen), SD.Ops(t.simulator);
    var i, m := s.install.pc, s.simulator.pc;
    match e
    case InstallStart(seen) => s.(seen := seen, install := START)
    case InstallRead => if i < |p.writes| then s.(install := Program(i, Look(s.objs, p.writes[i].key))) else s
    case InstallWrite(landed, answered) =>
      if i < |p.writes| && !s.install.snap.Unread? then WriteStep(t, s, p.writes[i], landed, answered) else s
    case InstallDelete => if i == |p.writes| && p.end.Drop? then s.(objs := s.objs - {p.end.key}) else s
    case SimulatorStart => s.(simulator := START)
    case SimulatorRead => if m < |ops| then s.(simulator := Program(m, Look(s.objs, ops[m].key))) else s
    case SimulatorWrite(landed, answered) =>
      if m < |ops| && !s.simulator.snap.Unread? then OpStep(t, s, ops[m], landed, answered) else s
  }

  function Run(t: Setting, s: World, es: seq<Event>): World
  {
    if es == [] then s else Step(t, Run(t, s, es[..|es| - 1]), es[|es| - 1])
  }

  lemma {:induction false} RunSplit(t: Setting, s: World, es: seq<Event>, fs: seq<Event>)
    ensures Run(t, s, es + fs) == Run(t, Run(t, s, es), fs)
    decreases |fs|
  {
    hide Step;
    if fs == [] {
      assert es + fs == es;
    } else {
      var n := |fs| - 1;
      assert (es + fs)[..|es + fs| - 1] == es + fs[..n] && (es + fs)[|es + fs| - 1] == fs[n];
      RunSplit(t, s, es, fs[..n]);
    }
  }

  /** The proxy Service has the type, selector and ports of the SchedulerInstall. */
  predicate ProxyHolds(t: Setting, objs: Objects)
  {
    var k := SI.ProxyKey(t.install);
    k in objs && objs[k].content == SI.ProxyContent(t.install.spec.proxy)
  }

  /** The install's own EPP Service is the proxy Service, and its EPP writes are not refused. */
  predicate Overwrites(i: SI.Install)
  {
    SC.Clash(i) && i.spec.simNs != "" && i.spec.schedNs == i.ns
  }

  // ---------- The writes on the shared Service ----------

  /** Unless the install overwrites it itself, all its writes on the proxy Service have the proxy's content. */
  lemma OneContent(t: Setting, seen: SI.Seen, n: nat)
    requires !Overwrites(t.install) && n < |Plan(t, seen).writes|
    requires Plan(t, seen).writes[n].key == SI.ProxyKey(t.install)
    ensures Plan(t, seen).writes[n].change.content == Some(SI.ProxyContent(t.install.spec.proxy))
  {
    hide SI.PlanOf, SI.EppServiceWrite, SI.ProxyContent;
    var i, w := t.install, Plan(t, seen).writes[n];
    SI.PlanRanked(t.has, i, seen);
    SC.ServiceKeys(i);
    if w != SI.ProxyWrite(i) {
      assert SC.Clash(i);
      RefusedEpp(t.has, i, seen);
    }
  }

  /** An EPP whose objects the install may not own is refused before anything is written. */
  lemma RefusedEpp(has: Kind -> bool, i: SI.Install, seen: SI.Seen)
    requires SI.HasEpp(i) && !(i.spec.simNs != "" && i.spec.schedNs == i.ns)
    ensures SI.PlanOf(has, i, seen).writes == []
  {
    hide SI.GatewayPlan, SI.TrafficPlan, SI.FilterPlan, SI.ProxyWrite, SI.RbacPlan, SI.WorkloadPlan, SI.EppServiceWrite;
    if i.spec.simNs != "" {
      assert SI.AccessPlan(i, i.spec.epp.value) == SI.FAIL;
      assert SI.EppPlan(i) == SI.FAIL;
    }
  }

  lemma ScaledIsDeployment(m: SD.Simulator, n: nat)
    requires n < |SD.Ops(m)| && SD.Ops(m)[n].scale
    ensures SD.Ops(m)[n].key.kind.Deployment?
  {
    SV.OpsNoRivals(m);
  }

  lemma DropIsFilter(t: Setting, seen: SI.Seen)
    requires Plan(t, seen).end.Drop?
    ensures Plan(t, seen).end.key.kind.EnvoyFilter?
  {
    SI.PlanRanked(t.has, t.install, seen);
  }

  /** With both names left open in one namespace, the two resources mean one Service, and not the same one. */
  lemma DefaultsMeet(i: SI.Install, s: SI.Spec, m: SD.Simulator, l: SD.Legacy)
    requires i.spec == SI.Defaulted(i.ns, s) && s.proxy.name == "" && s.proxy.selector == map[]
    requires m.spec.legacy == SD.DefaultLegacy(l) && l.service.name == "" && m.ns == i.spec.simNs
    ensures SD.LegacyServiceOp(m, m.spec.legacy).key == SI.ProxyKey(i)
    ensures SD.LegacyServiceOp(m, m.spec.legacy).obj.content != SI.ProxyContent(i.spec.proxy)
  {
    assert i.spec.proxy == SI.DefaultProxy(s.proxy);
    hide SI.Defaulted;
    assert "llm-d.ai/inferenceServing" in SI.DECODE_PODS;
    assert "llm-d.ai/inferenceServing"[9] != "app.kubernetes.io/name"[9];
    assert "llm-d.ai/inferenceServing" !in SD.Labelled(m, "llm-d.ai/role", "decode") by {
      assert |"llm-d.ai/inferenceServing"| != |"llm-d.ai/role"|;
    }
  }

  /**
    The proxy Service of an install that leaves its selector open finds the decode pods of every simulator,
    not the prefill pods, and reaches them exactly if its target port is the stage's.
  */
  lemma ProxyReachesDecodeIff(i: SI.Install, s: SI.Spec, m: SD.Simulator, c: SD.StageSpec)
    requires i.spec == SI.Defaulted(i.ns, s) && s.proxy.selector == map[]
    ensures var pods := SD.StageOps(m, "decode", c)[0].obj.content;
            && pods.Workload? && Selects(SI.ProxyContent(i.spec.proxy).selector, pods.podLabels)
            && (SI.ProxyContent(i.spec.proxy).ports[0].target in pods.container.ports <==>
                i.spec.proxy.targetPort == c.port)
    ensures var pods := SD.StageOps(m, "prefill", c)[0].obj.content;
            pods.Workload? && !Selects(SI.ProxyContent(i.spec.proxy).selector, pods.podLabels)
  {
    assert i.spec.proxy.selector == SI.DECODE_PODS by { assert i.spec.proxy == SI.DefaultProxy(s.proxy); }
    hide SI.Defaulted, SD.SimulatorArgs, SD.StageName;
    assert "llm-d.ai/role" in SI.DECODE_PODS && SI.DECODE_PODS["llm-d.ai/role"] == "decode";
    assert SD.ServingLabels(m, "prefill")["llm-d.ai/role"] == "prefill";
    assert |"prefill"| != |"decode"|;
    assert [c.port][0] == c.port;
  }

  /**
    In the cluster: after a success of the install and then one of a simulator in its simulator namespace that
    creates the decode Deployment, the live proxy Service selects the live decode pods, and its target port is
    one they expose exactly if it is the stage's.
  */
  lemma ProxyReachesDecodeLive(alloc: Key -> string, i: SI.Install, s: SI.Spec, m: SD.Simulator, a: Attempt, b: Attempt)
    requires i.spec == SI.Defaulted(i.ns, s) && s.proxy.selector == map[] && m.ns == i.spec.simNs
    requires SR.Succeeded(alloc, i, a) && SD.Ran(alloc, SD.Ops(m), b) && b.ok && b.before == a.after
    requires SD.HasStage(m.spec.decode) && Key(Deployment, m.ns, SD.StageName("decode")) !in b.before
    ensures var svc, dep := SI.ProxyKey(i), Key(Deployment, m.ns, SD.StageName("decode"));
            && DR.LiveSelects(b.after, svc, dep) && |b.after[svc].content.ports| == 1
            && (b.after[svc].content.ports[0].target in b.after[dep].content.container.ports <==>
                i.spec.proxy.targetPort == SD.DefaultStage(m.spec.decode.value, m.spec).port)
  {
    hide SI.Defaulted, SD.Ran, SD.Ops, SD.DefaultStage, SD.StageName, SD.StageOps, SR.Succeeded, SC.Settled,
      SV.ScaledKeys, Selects;
    var c := SD.DefaultStage(m.spec.decode.value, m.spec);
    ProxyReachesDecodeIff(i, s, m, c);
    ProxyLive(alloc, i, a);
    NotScaled(i, m);
    SV.AttemptFrame(alloc, m, b, SI.ProxyKey(i));
    assert |"prefill"| != |"decode"|;
    DR.StageCreated(alloc, m, b, "decode");
  }

  lemma ProxyLive(alloc: Key -> string, i: SI.Install, a: Attempt)
    requires SR.Succeeded(alloc, i, a)
    ensures SI.ProxyKey(i) in a.after && a.after[SI.ProxyKey(i)].content == SI.ProxyContent(i.spec.proxy)
  {
    hide SR.Succeeded, SC.Settled, SI.ProxyContent;
    SR.RestSettled(alloc, i, a, SI.ProxyWrite(i));
    SR.SettledHolds(SI.ProxyWrite(i), a.after);
  }

  lemma NotScaled(i: SI.Install, m: SD.Simulator)
    ensures SI.ProxyKey(i) !in SV.ScaledKeys(m)
  {
    hide SD.StageName, SD.LegacyName;
  }

  // ---------- Stability ----------

  lemma StepStable(t: Setting, s: World, e: Event)
    requires !Overwrites(t.install) && ProxyHolds(t, s.objs)
    ensures ProxyHolds(t, Step(t, s, e).objs)
  {
    hide Plan, Overwrites, SD.Ops, SI.ProxyContent, Stored;
    match e
    case InstallWrite(landed, answered) =>
      var p := Plan(t, s.seen);
      if s.install.pc < |p.writes| && p.writes[s.install.pc].key == SI.ProxyKey(t.install) {
        OneContent(t, s.seen, s.install.pc);
      }
    case SimulatorWrite(landed, answered) =>
      var ops := SD.Ops(t.simulator);
      if s.simulator.pc < |ops| && ops[s.simulator.pc].scale { ScaledIsDeployment(t.simulator, s.simulator.pc); }
    case InstallDelete => if Plan(t, s.seen).end.Drop? { DropIsFilter(t, s.seen); }
    case _ =>
  }

  lemma {:induction false} RunStable(t: Setting, s: World, es: seq<Event>)
    requires !Overwrites(t.install) && ProxyHolds(t, s.objs)
    ensures ProxyHolds(t, Run(t, s, es).objs)
    decreases |es|
  {
    hide Step, ProxyHolds, Overwrites;
    if es == [] {
    } else {
      RunStable(t, s, es[..|es| - 1]);
      StepStable(t, Run(t, s, es[..|es| - 1]), es[|es| - 1]);
    }
  }

  /** The event is a write of the proxy Service by the SchedulerInstall reconciler, and it lands. */
  predicate Lands(t: Setting, s: World, e: Event)
  {
    && e.InstallWrite? && e.landed && s.install.pc < |Plan(t, s.seen).writes|
    && Plan(t, s.seen).writes[s.install.pc] == SI.ProxyWrite(t.install)
    && Accepted(s.objs, SI.ProxyKey(t.install), s.install.snap)
  }

  lemma LandingHolds(t: Setting, s: World, e: Event)
    requires Lands(t, s, e) && Step(t, s, e).objs != s.objs
    ensures ProxyHolds(t, Step(t, s, e).objs)
  {
    hide Plan, SI.ProxyContent;
    assert SI.ProxyWrite(t.install).key == SI.ProxyKey(t.install);
  }

  /**
    Whatever the two reconcilers do in whatever order, once a SchedulerInstall write of the proxy Service
    has landed, its type, selector and ports stay that install's.
  */
  lemma LandedStays(t: Setting, s: World, es: seq<Event>, n: nat)
    requires !Overwrites(t.install) && n < |es|
    requires var before := Run(t, s, es[..n]); Lands(t, before, es[n]) && Step(t, before, es[n]).objs != before.objs
    ensures ProxyHolds(t, Run(t, s, es).objs)
  {
    hide Step, ProxyHolds, Overwrites, Lands;
    var before := Run(t, s, es[..n]);
    LandingHolds(t, before, es[n]);
    assert es[..n + 1][..n] == es[..n] && es == es[..n + 1] + es[n + 1..];
    assert Run(t, s, es[..n + 1]) == Step(t, before, es[n]);
    RunSplit(t, s, es[..n + 1], es[n + 1..]);
    RunStable(t, Run(t, s, es[..n + 1]), es[n + 1..]);
  }

  // ---------- The exact condition ----------

  /** A reconcile up to its n-th write with no failure and nothing in between. */
  function Undisturbed(n: nat): seq<Event>
  {
    if n == 0 then [] else Undisturbed(n - 1) + [InstallRead] + [InstallWrite(true, true)]
  }

  lemma ReadThenWrite(t: Setting, s: World)
    requires s.install.pc < |Plan(t, s.seen).writes| && Plan(t, s.seen).writes[s.install.pc].change.claim.None?
    ensures var d := Step(t, Step(t, s, InstallRead), InstallWrite(true, true));
            && d.objs == Apply(t.alloc, Plan(t, s.seen).writes[s.install.pc], s.objs)
            && d.seen == s.seen && d.install == Program(s.install.pc + 1, Unread)
  {
    hide Plan, Mutate, Stored;
    var w := Plan(t, s.seen).writes[s.install.pc];
    if w.key in s.objs && Mutate(w, s.objs[w.key]) == s.objs[w.key] { assert s.objs[w.key := s.objs[w.key]] == s.objs; }
  }

  lemma {:induction false} UndisturbedRun(t: Setting, s: World, n: nat)
    requires s.install == START && n <= |Plan(t, s.seen).writes|
    requires forall j :: 0 <= j < n ==> Plan(t, s.seen).writes[j].change.claim.None?
    ensures var d := Run(t, s, Undisturbed(n));
            d.objs == After(t.alloc, Plan(t, s.seen).writes[..n], s.objs)
            && d.seen == s.seen && d.install == Program(n, Unread)
  {
    hide Step, Plan, Apply, After, Run;
    if n == 0 {
      RunNothing(t, s);
    } else {
      UndisturbedRun(t, s, n - 1);
      var ws := Plan(t, s.seen).writes;
      assert ws[..n][..n - 1] == ws[..n - 1] && ws[..n][n - 1] == ws[n - 1];
      AfterLast(t.alloc, ws[..n], s.objs);
      var es := Undisturbed(n - 1);
      RunTwo(t, s, es, InstallRead, InstallWrite(true, true));
      ReadThenWrite(t, Run(t, s, es));
    }
  }

  lemma RunNothing(t: Setting, s: World)
    ensures Run(t, s, Undisturbed(0)) == s && After(t.alloc, Plan(t, s.seen).writes[..0], s.objs) == s.objs
  {
    hide Plan;
  }

  lemma RunTwo(t: Setting, s: World, es: seq<Event>, x: Event, y: Event)
    ensures Run(t, s, es + [x] + [y]) == Step(t, Step(t, Run(t, s, es), x), y)
  {
    hide Step;
    assert (es + [x] + [y])[..|es + [x] + [y]| - 1] == es + [x] && (es + [x])[..|es + [x]| - 1] == es;
  }

  /** The next undisturbed reconcile of an install that overwrites the proxy Service undoes it. */
  lemma Undone(t: Setting, s: World) returns (es: seq<Event>)
    requires Overwrites(t.install)
    ensures !ProxyHolds(t, Run(t, s, es).objs)
  {
    hide Plan, Overwrites, Step, After, Apply, SI.ProxyContent, SI.EppServiceWrite, ProxyHolds;
    var seen := SI.Seen("", None);
    var n := EppServiceAt(t, seen);
    var ws := Plan(t, seen).writes;
    var d := s.(seen := seen, install := START);
    StartRun(t, s, seen);
    UndisturbedRun(t, d, n + 1);
    es := [InstallStart(seen)] + Undisturbed(n + 1);
    RunSplit(t, s, [InstallStart(seen)], Undisturbed(n + 1));
    assert ws[..n + 1][..n] == ws[..n];
    AfterLast(t.alloc, ws[..n + 1], s.objs);
    OverwriteMeans(t.install);
    EppContentDiffers(t, ws[n], After(t.alloc, ws[..n], s.objs));
  }

  lemma OverwriteMeans(i: SI.Install)
    requires Overwrites(i)
    ensures SI.HasEpp(i) && SC.Clash(i)
  {
  }

  lemma AfterLast(alloc: Key -> string, ws: seq<Write>, c: Objects)
    requires ws != []
    ensures After(alloc, ws, c) == Apply(alloc, ws[|ws| - 1], After(alloc, ws[..|ws| - 1], c))
  {
  }

  lemma StartRun(t: Setting, s: World, seen: SI.Seen)
    ensures Run(t, s, [InstallStart(seen)]) == s.(seen := seen, install := START)
  {
    hide Step;
    StartStep(t, s, seen);
    assert [InstallStart(seen)][..0] == [];
    assert Run(t, s, [InstallStart(seen)][..0]) == s;
  }

  lemma StartStep(t: Setting, s: World, seen: SI.Seen)
    ensures Step(t, s, InstallStart(seen)) == s.(seen := seen, install := START)
  {
  }

  lemma EppContentDiffers(t: Setting, w: Write, c: Objects)
    requires SI.HasEpp(t.install) && SC.Clash(t.install) && w == SI.EppServiceWrite(t.install, t.install.spec.epp.value)
    ensures !ProxyHolds(t, Apply(t.alloc, w, c))
  {
    var p := t.install.spec.proxy;
    assert [Port("grpc", t.install.spec.epp.value.port, 9002)][0] != [Port("http", p.port, p.targetPort)][0];
  }

  /** The EPP Service is among the writes of an overwriting install, with no claim before it. */
  lemma EppServiceAt(t: Setting, seen: SI.Seen) returns (n: nat)
    requires Overwrites(t.install)
    ensures n < |Plan(t, seen).writes|
    ensures Plan(t, seen).writes[n] == SI.EppServiceWrite(t.install, t.install.spec.epp.value)
    ensures forall j :: 0 <= j < n + 1 ==> Plan(t, seen).writes[j].change.claim.None?
  {
    var i, e := t.install, t.install.spec.epp.value;
    EppOwned(i, e);
    SC.EppIn(i, e, SI.EppServiceWrite(i, e));
    EppFirst(t.has, i, seen);
    SI.PlanRanked(t.has, i, seen);
    SC.ServiceKeys(i);
    hide SI.PlanOf, SI.EppPlanOf, SI.EppServiceWrite, SI.ProxyWrite, SI.Rank, SI.Ranked, SC.EppWrites;
    n :| 0 <= n < |SI.EppPlanOf(i, e).writes| && SI.EppPlanOf(i, e).writes[n] == SI.EppServiceWrite(i, e);
    Claimless(i, Plan(t, seen).writes, n);
  }

  /** The EPP's writes come first. */
  lemma EppFirst(has: Kind -> bool, i: SI.Install, seen: SI.Seen)
    requires SI.HasEpp(i) && i.spec.simNs != ""
    ensures SI.EppPlanOf(i, i.spec.epp.value).writes <= SI.PlanOf(has, i, seen).writes
  {
    hide SI.EppPlanOf, SI.GatewayPlan, SI.TrafficPlan, SI.FilterPlan, SI.ProxyWrite;
  }

  lemma Claimless(i: SI.Install, ws: seq<Write>, n: nat)
    requires SI.Ranked(i, ws, 0, 12) && n < |ws| && SI.Rank(ws[n]) < 11
    ensures forall j :: 0 <= j <= n ==> ws[j].change.claim.None?
  {
    hide SI.Rank, SI.ServiceWrite;
  }

  lemma EppOwned(i: SI.Install, e: SI.EppSpec)
    requires i.spec.schedNs == i.ns
    ensures SI.EppPlanOf(i, e).end.Done?
  {
  }

  /**
    The exact condition: the proxy Service stays the install's under every schedule, from every state in
    which it is, if and only if the install does not overwrite it itself.
  */
  lemma StableIff(t: Setting, s: World)
    requires ProxyHolds(t, s.objs)
    ensures (forall es :: ProxyHolds(t, Run(t, s, es).objs)) <==> !Overwrites(t.install)
  {
    hide Run, Overwrites, ProxyHolds;
    if Overwrites(t.install) {
      var es := Undone(t, s);
    } else {
      forall es ensures ProxyHolds(t, Run(t, s, es).objs) { RunStable(t, s, es); }
    }
  }
}
