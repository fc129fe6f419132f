/**
  The limits of the reconcilers' guarantees are reached: for each a resource, or two, and successes from an
  empty cluster after which the guarantee fails.
*/
module OperatorLimits {
  import opened Basics
  import opened Cluster
  import SI = SchedulerInstall
  import SC = SchedulerInstallConvergence
  import SR = SchedulerInstallReferences
  import SB = ServerDefaults
  import SD = SimulatorDeployment
  import SV = SimulatorDeploymentConvergence
  import DC = SimulatorDeploymentController
  import DR = SimulatorDeploymentReferences
  import DS = SimulatorDeploymentSharing

  // ---------- SchedulerInstall ----------

  /** A sound resource has a successful reconcile from any cluster. */
  lemma SuccessFrom(alloc: Key -> string, i: SI.Install, c: Objects) returns (a: Attempt)
    requires !SI.PlanAt(alloc, (k: Kind) => true, i, c).end.Broken?
    ensures SR.Succeeded(alloc, i, a) && a.before == c
  {
    hide SI.PlanAt, SI.Finish, Edits;
    var p := SI.PlanAt(alloc, (k: Kind) => true, i, c);
    a := Attempt(c, SI.Finish(alloc, p, c), true, Edits(alloc, p.writes, c));
  }

  /** One namespace "n", an EPP of that name and port, and nothing else but the proxy Service "proxy". */
  function Demo(epp: string, port: int, routing: Option<SI.RoutingSpec>): SI.Install
  {
    SI.Install("n", "demo",
      SI.Spec("n", "n", SI.ProxySpec("proxy", 8200, 8200, SI.DECODE_PODS),
              Some(SI.EppSpec(true, epp, port, 1, "pool", "n", "default", PodSpec(1, "image", [], ""))),
              None, routing, None, None))
  }

  lemma DemoSound(alloc: Key -> string, epp: string, port: int, routing: Option<SI.RoutingSpec>, c: Objects)
    requires routing.Some? ==> routing.value.pool.Some? && routing.value.pool.value.name != ""
    ensures !SI.PlanAt(alloc, (k: Kind) => true, Demo(epp, port, routing), c).end.Broken?
  {
    var i := Demo(epp, port, routing);
    hide SI.PlanOf, SI.See;
    SC.SoundIff((k: Kind) => true, i, SI.See(alloc, i, c));
  }

  /** An EPP that asks for another port than 9002 is not reached by its Service. */
  lemma EppUnreached(alloc: Key -> string) returns (i: SI.Install, a: Attempt)
    ensures SR.Succeeded(alloc, i, a) && a.before == map[] && SI.HasEpp(i)
    ensures var svc, dep := SI.EppServiceKey(i, i.spec.epp.value),
                            Key(Deployment, i.spec.schedNs, i.spec.epp.value.name);
            && svc in a.after && a.after[svc].content.Endpoint? && |a.after[svc].content.ports| == 1
            && dep in a.after && a.after[dep].content.Workload? && |a.after[dep].content.container.ports| == 3
            && a.after[svc].content.ports[0].target != a.after[dep].content.container.ports[0]
  {
    hide SR.Succeeded, Demo, SC.Clash, SI.GrpcPort;
    i := Demo("epp", 9003, None);
    OtherPort(i);
    DemoSound(alloc, "epp", 9003, None, map[]);
    a := SuccessFrom(alloc, i, map[]);
    SR.EppServiceReachesIff(alloc, i, a);
  }

  lemma OtherPort(i: SI.Install)
    requires i == Demo("epp", 9003, None)
    ensures SI.HasEpp(i) && !SC.Clash(i) && SI.GrpcPort(i.spec.epp.value) != 9002
  {
    assert |"epp"| != |"proxy"|;
  }

  /** An EPP named like the proxy Service: a second success in a row still makes calls. */
  lemma SecondRunNotSilent(alloc: Key -> string) returns (i: SI.Install, a: Attempt, b: Attempt)
    ensures SR.Succeeded(alloc, i, a) && a.before == map[]
    ensures SR.Succeeded(alloc, i, b) && b.before == a.after && b.edits != 0
  {
    hide SI.PlanAt, SI.Ran;
    i := Demo("proxy", 9002, None);
    DemoSound(alloc, "proxy", 9002, None, map[]);
    a := SuccessFrom(alloc, i, map[]);
    DemoSound(alloc, "proxy", 9002, None, a.after);
    b := SuccessFrom(alloc, i, a.after);
    SC.SecondRunSilentIff(alloc, (k: Kind) => true, i, a, b);
  }

  /** A server that adds something to containers sent without it; the resources stand for the fields left open. */
  function FillsContainers(x: Content): Content
  {
    if x.Workload? && x.container.resources == "" then x.(container := x.container.(resources := "default")) else x
  }

  /** With an EPP such a server is sent an Update again by every success, of a sound resource without a clash. */
  lemma DefaultsSentAgain(alloc: Key -> string) returns (i: SI.Install)
    ensures SI.HasEpp(i) && !SC.Clash(i)
    ensures var p := SI.PlanAt(alloc, (k: Kind) => true, i, map[]);
            && !p.end.Broken?
            && SB.EditsBy(alloc, FillsContainers, p.writes, SB.FinishBy(alloc, FillsContainers, p, map[])) > 0
  {
    hide SB.EditsBy, SB.FinishBy, SI.PlanAt;
    var has := (k: Kind) => true;
    i := Demo("epp", 9002, None);
    assert |"epp"| != |"proxy"|;
    DemoSound(alloc, "epp", 9002, None, map[]);
    SB.SecondRunSilentByIff(alloc, FillsContainers, has, i, map[]);
    EppDeploymentIn(alloc, i);
  }

  lemma EppDeploymentIn(alloc: Key -> string, i: SI.Install)
    requires i == Demo("epp", 9002, None) && !SI.PlanAt(alloc, (k: Kind) => true, i, map[]).end.Broken?
    ensures var ws := SI.PlanAt(alloc, (k: Kind) => true, i, map[]).writes;
            exists j :: 0 <= j < |ws| && !SB.Kept(FillsContainers, ws[j])
  {
    hide SI.PlanAt, SI.EppArgs;
    var has, e := (k: Kind) => true, i.spec.epp.value;
    var w, ws := SI.DeploymentWrite(i, e), SI.PlanAt(alloc, (k: Kind) => true, i, map[]).writes;
    SC.MainIn(alloc, has, i, map[], w);
    SC.ServicesIn(has, i, w);
    SC.EppIn(i, e, w);
    var j :| 0 <= j < |ws| && ws[j] == w;
    assert !SB.Kept(FillsContainers, w) by { assert |"default"| != |""|; }
  }

  /** A route to a pool in another namespace than the simulators': the grant does not cover it. */
  lemma PoolNotCovered(alloc: Key -> string) returns (i: SI.Install, r: SI.RoutingSpec, a: Attempt)
    ensures SR.Succeeded(alloc, i, a) && a.before == map[] && SC.HasRouting(i) && r == i.spec.routing.value
    ensures !SR.GrantCovers(SI.GrantWrite(i).key, SI.RouteWrite(i, r).key, SI.RouteBackend(i, r), a.after)
  {
    hide SR.Succeeded, SR.GrantCovers;
    r := SI.RoutingSpec(true, SI.POOL_BACKEND, Some(SI.PoolRef("pool", "elsewhere", 0)),
                        "route", SI.GatewayRef("g", "n"));
    i := Demo("epp", 9002, Some(r));
    DemoSound(alloc, "epp", 9002, Some(r), map[]);
    a := SuccessFrom(alloc, i, map[]);
    assert |"elsewhere"| != |"n"|;
    SR.RouteResolves(alloc, i, a);
  }

  // ---------- SimulatorDeployment ----------

  /** A simulator has a successful reconcile from any cluster. */
  lemma SimulatorSuccessFrom(alloc: Key -> string, m: SD.Simulator, c: Objects) returns (a: Attempt)
    ensures SD.Ran(alloc, SD.Ops(m), a) && a.ok && a.before == c
  {
    hide SD.Ops, SD.AfterOps, SD.OpEdits;
    a := Attempt(c, SD.AfterOps(alloc, SD.Ops(m), c), true, SD.OpEdits(alloc, SD.Ops(m), c));
  }

  const POD := PodSpec(2, "image", [], "")
  const SINGLE := SD.Legacy(POD, 5, SD.ServiceSpec("proxy", 8200, "ClusterIP"))
  const STAGE := SD.StageSpec(true, 8200, 5, POD)
  const GATEWAY := SD.Instance(true, 8080, 1, "image", "")

  /** Only the prefill stage: the Deployment whose status is reported never appears. */
  lemma PrefillUnreported(alloc: Key -> string) returns (m: SD.Simulator, a: Attempt)
    ensures SD.Ran(alloc, SD.Ops(m), a) && a.ok && a.before == map[] && SD.HasStage(m.spec.prefill)
    ensures DC.StatusKey(m) !in a.after
  {
    hide SD.Ran, SD.Ops, DC.StatusKey;
    m := SD.Simulator("n", "demo", SD.Spec(SINGLE, None, None, Some(STAGE), None));
    a := SimulatorSuccessFrom(alloc, m, map[]);
    SV.StatusReportedIff(alloc, m, a);
  }

  /** An Istio gateway is not reached by its Service. */
  lemma IstioUnreached(alloc: Key -> string) returns (m: SD.Simulator, a: Attempt)
    ensures SD.Ran(alloc, SD.Ops(m), a) && a.ok && a.before == map[] && DR.HasGateway(m, true)
    ensures !DR.LiveReaches(a.after, Key(Service, m.ns, SD.ISTIO_GATEWAY), Key(Deployment, m.ns, SD.ISTIO_GATEWAY))
  {
    hide SD.Ran, SD.Ops, DR.LiveReaches;
    m := SD.Simulator("n", "demo",
           SD.Spec(SINGLE, None, Some(SD.GatewaysSpec(true, None, Some(GATEWAY))), None, None));
    a := SimulatorSuccessFrom(alloc, m, map[]);
    DR.GatewayLiveIff(alloc, m, a, true);
  }

  /** With both gateways the standard one's Service selects the Istio gateway's pods. */
  lemma StandardTakesIstioPods(alloc: Key -> string) returns (m: SD.Simulator, a: Attempt)
    ensures SD.Ran(alloc, SD.Ops(m), a) && a.ok && a.before == map[]
    ensures DR.LiveSelects(a.after, Key(Service, m.ns, SD.STANDARD_GATEWAY), Key(Deployment, m.ns, SD.ISTIO_GATEWAY))
  {
    hide SD.Ran, SD.Ops, DR.LiveSelects;
    m := SD.Simulator("n", "demo",
           SD.Spec(SINGLE, None, Some(SD.GatewaysSpec(true, Some(GATEWAY), Some(GATEWAY))), None, None));
    a := SimulatorSuccessFrom(alloc, m, map[]);
    DR.StandardSelectsIstioLive(alloc, m, a);
  }

  /** The EPP Deployment is there, the ServiceAccount it runs under is not. */
  lemma EppAccountMissing(alloc: Key -> string) returns (m: SD.Simulator, a: Attempt)
    ensures SD.Ran(alloc, SD.Ops(m), a) && a.ok && a.before == map[]
    ensures var epp := Key(Deployment, m.ns, SD.EPP_NAME);
            && epp in a.after && a.after[epp].content.Workload?
            && Key(ServiceAccount, m.ns, a.after[epp].content.account) !in a.after
  {
    hide SD.Ran, SD.Ops;
    var e := SD.EppSpec(true, 8100, 1, POD);
    m := SD.Simulator("n", "demo", SD.Spec(SINGLE, Some(e), None, None, None));
    a := SimulatorSuccessFrom(alloc, m, map[]);
    DR.EppAccountIff(alloc, m, SD.DefaultEpp(e), a);
    DR.EppLive(alloc, m, a);
  }

  /** A resource of that name, in the namespace "n", with these stages. */
  function Staged(name: string, prefill: Option<SD.StageSpec>, decode: Option<SD.StageSpec>): SD.Simulator
  {
    SD.Simulator("n", name, SD.Spec(SINGLE, None, None, prefill, decode))
  }

  function StageOf(replicas: int): Option<SD.StageSpec>
  {
    Some(SD.StageSpec(true, 8200, 5, PodSpec(replicas, "image", [], "")))
  }

  /** One success of each of the two resources, and the first one makes calls again. */
  ghost predicate Fight(alloc: Key -> string, m: SD.Simulator, o: SD.Simulator, a: Attempt, b: Attempt, c: Attempt)
  {
    && SD.Ran(alloc, SD.Ops(m), a) && a.ok && a.before == map[]
    && SD.Ran(alloc, SD.Ops(o), b) && b.ok && b.before == a.after
    && SD.Ran(alloc, SD.Ops(m), c) && c.ok && c.before == b.after && c.edits != 0
  }

  lemma Fights(alloc: Key -> string, m: SD.Simulator, o: SD.Simulator) returns (a: Attempt, b: Attempt, c: Attempt)
    requires m.ns == o.ns && !DS.Agree(m, o)
    ensures Fight(alloc, m, o, a, b, c)
  {
    hide SD.Ops, SD.AfterOps, SD.OpEdits, DS.Agree;
    a := SimulatorSuccessFrom(alloc, m, map[]);
    b := SimulatorSuccessFrom(alloc, o, a.after);
    c := SimulatorSuccessFrom(alloc, m, b.after);
    DS.SharingSettlesIff(alloc, m, o, map[]);
  }

  /** Two resources in one namespace that agree on the decode stage and not on the prefill stage. */
  lemma StagesFight(alloc: Key -> string) returns (m: SD.Simulator, o: SD.Simulator, a: Attempt, b: Attempt, c: Attempt)
    ensures Fight(alloc, m, o, a, b, c) && m.spec.decode == o.spec.decode
  {
    hide Fight;
    m, o := Staged("one", StageOf(1), StageOf(2)), Staged("two", StageOf(3), StageOf(2));
    a, b, c := Fights(alloc, m, o);
  }

  /** A single Deployment whose name is that of another resource's decode stage. */
  lemma SingleFightsStage(alloc: Key -> string)
    returns (m: SD.Simulator, o: SD.Simulator, a: Attempt, b: Attempt, c: Attempt)
    ensures Fight(alloc, m, o, a, b, c) && SD.IsLegacy(m.spec) && o.spec.prefill.None? && m.name != o.name
  {
    hide Fight;
    m, o := Staged(DS.STAGE_LIKE, None, None), Staged("two", None, StageOf(1));
    assert |m.name| != |o.name|;
    a, b, c := Fights(alloc, m, o);
  }
}
