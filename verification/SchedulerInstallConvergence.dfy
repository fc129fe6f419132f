/**
  Retried reconciles: whatever failed before, a success ends where one success from the original cluster
  would have ended; a second success edits nothing, unless the two Services of the plan are one.
*/
module SchedulerInstallConvergence {
  import opened Basics
  import opened Cluster
  import opened SchedulerInstall

  // ---------- Defaults ----------

  lemma PoolKeepsPool(p: Option<PoolRef>, e: Option<EppSpec>, ns: string)
    ensures DefaultPool(Some(DefaultPool(p, e, ns)), e, ns) == DefaultPool(p, e, ns)
  {
  }

  lemma BaseIdempotent(ns: string, s: Spec)
    ensures DefaultBase(ns, DefaultBase(ns, s)) == DefaultBase(ns, s)
  {
    var d := DefaultBase(ns, s);
    assert DefaultProxy(d.proxy) == d.proxy;
    if s.epp.Some? { EppIdempotent(s.epp.value, s.simNs); }
    if s.gateway.Some? { GatewayIdempotent(s.gateway.value); }
  }

  lemma EppIdempotent(e: EppSpec, ns: string)
    ensures DefaultEpp(DefaultEpp(e, ns), ns) == DefaultEpp(e, ns)
  {
  }

  lemma GatewayIdempotent(g: GatewaySpec)
    ensures DefaultGateway(DefaultGateway(g)) == DefaultGateway(g)
  {
  }

  lemma RoutingIdempotent(r: RoutingSpec, d: Spec)
    ensures DefaultRouting(DefaultRouting(r, d), d) == DefaultRouting(r, d)
  {
    hide DefaultPool;
    PoolKeepsPool(r.pool, d.epp, d.simNs);
  }

  lemma RuleAndFilterIdempotent(r: RuleSpec, f: FilterSpec, g: Option<GatewaySpec>)
    ensures DefaultRule(DefaultRule(r)) == DefaultRule(r)
    ensures DefaultFilter(DefaultFilter(f, g), g) == DefaultFilter(f, g)
  {
  }

  /** Filling in the defaults of a resource that has them changes nothing. */
  lemma DefaultsIdempotent(ns: string, s: Spec)
    ensures Defaulted(ns, Defaulted(ns, s)) == Defaulted(ns, s)
  {
    var d := Defaulted(ns, s);
    var b := DefaultBase(ns, s);
    assert DefaultBase(ns, d) == d by {
      BaseIdempotent(ns, s);
      assert DefaultBase(ns, d) == DefaultBase(ns, b).(routing := d.routing, rule := d.rule, filter := d.filter);
    }
    hide DefaultBase, DefaultRouting, DefaultRule, DefaultFilter;
    DependsOnBase(s, d, b);
    if s.routing.Some? { RoutingIdempotent(s.routing.value, b); }
    var f := if s.filter.Some? then s.filter.value else FilterSpec(false, "", map[]);
    var r := if s.rule.Some? then s.rule.value else RuleSpec(false, "", None);
    RuleAndFilterIdempotent(r, f, b.gateway);
  }

  lemma DependsOnBase(s: Spec, d: Spec, b: Spec)
    requires d.epp == b.epp && d.gateway == b.gateway && d.schedNs == b.schedNs && d.simNs == b.simNs
    ensures forall r :: DefaultRouting(r, d) == DefaultRouting(r, b)
  {
  }

  predicate KeepsEpp(s: EppSpec, d: EppSpec)
  {
    && d.enabled == s.enabled && d.verbosity == s.verbosity && KeepsText(s.name, d.name) && KeepsNumber(s.port, d.port)
    && KeepsText(s.poolName, d.poolName) && KeepsText(s.poolNs, d.poolNs) && KeepsText(s.profile, d.profile)
    && KeepsNumber(s.pod.replicas, d.pod.replicas) && KeepsText(s.pod.image, d.pod.image)
    && d.pod.args == s.pod.args && d.pod.resources == s.pod.resources
    && d.name != "" && d.port != 0 && d.pod.replicas != 0 && d.pod.image != "" && d.poolName != "" && d.profile != ""
  }

  predicate KeepsGateway(s: GatewaySpec, d: GatewaySpec)
  {
    && d.enabled == s.enabled && KeepsText(s.name, d.name) && KeepsText(s.className, d.className)
    && KeepsNumber(s.port, d.port) && KeepsText(s.protocol, d.protocol)
    && d.name != "" && d.className != "" && d.port != 0 && d.protocol != ""
  }

  predicate KeepsRouting(s: RoutingSpec, d: RoutingSpec)
  {
    && d.enabled == s.enabled && KeepsText(s.backendType, d.backendType) && KeepsText(s.routeName, d.routeName)
    && KeepsText(s.parent.name, d.parent.name) && KeepsText(s.parent.ns, d.parent.ns)
    && (s.pool.Some? ==> d.pool.Some? && KeepsText(s.pool.value.name, d.pool.value.name)
                         && KeepsText(s.pool.value.ns, d.pool.value.ns) && d.pool.value.port == s.pool.value.port)
    && (s.pool.None? && d.backendType != POOL_BACKEND ==> d.pool.None?)
    && d.backendType != "" && d.routeName != "" && (d.backendType == POOL_BACKEND ==> d.pool.Some?)
  }

  /** What routing takes from the sections defaulted before it. */
  predicate RoutingSet(d: Spec, r: RoutingSpec)
  {
    && (d.gateway.Some? ==> r.parent.name != "") && (d.schedNs != "" ==> r.parent.ns != "")
    && (r.backendType == POOL_BACKEND ==>
          r.pool.Some? && (d.epp.Some? ==> r.pool.value.name != "") && (d.simNs != "" ==> r.pool.value.ns != ""))
  }

  predicate KeepsRule(s: RuleSpec, d: RuleSpec)
  {
    && d.enabled == s.enabled && KeepsText(s.algorithm, d.algorithm) && (s.pool.Some? ==> d.pool == s.pool)
    && d.algorithm != "" && d.pool.Some? && (s.pool.None? ==> d.pool == Some((1, 1)))
  }

  predicate KeepsFilter(s: FilterSpec, d: FilterSpec, gateway: Option<GatewaySpec>)
  {
    && d.enabled == s.enabled && KeepsText(s.name, d.name) && (s.selector != map[] ==> d.selector == s.selector)
    && d.name != ""
    && (s.selector == map[] && gateway.Some? ==>
          d.selector == map["gateway.networking.k8s.io/gateway-name" := gateway.value.name])
    && (s.selector == map[] && gateway.None? ==> d.selector == map[])
  }

  predicate KeepsProxy(s: ProxySpec, d: ProxySpec)
  {
    && KeepsText(s.name, d.name) && KeepsNumber(s.port, d.port) && KeepsNumber(s.targetPort, d.targetPort)
    && (s.selector != map[] ==> d.selector == s.selector)
    && d.name != "" && d.port != 0 && d.targetPort != 0 && d.selector != map[]
    && (s.targetPort == 0 ==> d.targetPort == d.port)
  }

  /** Every field the user set is kept, and what the writes rely on is set; no section appears or vanishes. */
  lemma DefaultsKeepUserFields(ns: string, s: Spec)
    ensures var d := Defaulted(ns, s);
            && d.simNs == s.simNs && KeepsText(s.schedNs, d.schedNs) && KeepsProxy(s.proxy, d.proxy)
            && d.epp.Some? == s.epp.Some? && d.gateway.Some? == s.gateway.Some? && d.routing.Some? == s.routing.Some?
            && d.rule.Some? == s.rule.Some? && d.filter.Some? == s.filter.Some?
    ensures ns != "" ==> Defaulted(ns, s).schedNs != ""
    ensures s.epp.Some? ==> KeepsEpp(s.epp.value, Defaulted(ns, s).epp.value)
    ensures s.epp.Some? && s.simNs != "" ==> Defaulted(ns, s).epp.value.poolNs != ""
    ensures s.gateway.Some? ==> KeepsGateway(s.gateway.value, Defaulted(ns, s).gateway.value)
    ensures s.routing.Some? ==> KeepsRouting(s.routing.value, Defaulted(ns, s).routing.value)
    ensures s.routing.Some? ==> RoutingSet(Defaulted(ns, s), Defaulted(ns, s).routing.value)
    ensures s.rule.Some? ==> KeepsRule(s.rule.value, Defaulted(ns, s).rule.value)
    ensures s.filter.Some? ==> KeepsFilter(s.filter.value, Defaulted(ns, s).filter.value, Defaulted(ns, s).gateway)
  {
    hide KeepsEpp, KeepsGateway, KeepsRouting, KeepsProxy, KeepsRule, KeepsFilter, DefaultProxy, DefaultEpp,
      DefaultGateway, DefaultRouting, DefaultRule, DefaultFilter;
    hide RoutingSet;
    ProxyKept(s.proxy);
    var b := DefaultBase(ns, s);
    if s.rule.Some? { RuleKept(s.rule.value); }
    if s.filter.Some? { FilterKept(s.filter.value, b.gateway); }
    if s.epp.Some? { EppKept(s.epp.value, s.simNs); }
    if s.gateway.Some? { GatewayKept(s.gateway.value); }
    if s.routing.Some? {
      RoutingKept(s.routing.value, b);
      RoutingFilled(s.routing.value, b);
      SameBase(b, Defaulted(ns, s), Defaulted(ns, s).routing.value);
    }
  }

  lemma ProxyKept(p: ProxySpec)
    ensures KeepsProxy(p, DefaultProxy(p))
  {
    assert "llm-d.ai/role" in DECODE_PODS;
  }

  lemma EppKept(e: EppSpec, ns: string)
    ensures KeepsEpp(e, DefaultEpp(e, ns))
    ensures DefaultEpp(e, ns).poolName != "" && (ns != "" ==> DefaultEpp(e, ns).poolNs != "")
  {
  }

  lemma GatewayKept(g: GatewaySpec)
    ensures KeepsGateway(g, DefaultGateway(g)) && DefaultGateway(g).name != ""
  {
  }

  lemma RuleKept(r: RuleSpec)
    ensures KeepsRule(r, DefaultRule(r))
  {
  }

  lemma FilterKept(f: FilterSpec, g: Option<GatewaySpec>)
    ensures KeepsFilter(f, DefaultFilter(f, g), g)
  {
  }

  lemma RoutingFilled(r: RoutingSpec, d: Spec)
    requires d.gateway.Some? ==> d.gateway.value.name != ""
    requires d.epp.Some? ==> d.epp.value.poolName != ""
    ensures RoutingSet(d, DefaultRouting(r, d))
  {
  }

  lemma SameBase(b: Spec, d: Spec, r: RoutingSpec)
    requires RoutingSet(b, r)
    requires d.gateway == b.gateway && d.schedNs == b.schedNs && d.epp == b.epp && d.simNs == b.simNs
    ensures RoutingSet(d, r)
  {
  }

  lemma RoutingKept(r: RoutingSpec, d: Spec)
    ensures KeepsRouting(r, DefaultRouting(r, d))
  {
  }

  // ---------- Convergence ----------

  /** Attempts on one resource, each a whole or a broken-off reconcile, one after the other. */
  ghost predicate Retries(alloc: Key -> string, has: Kind -> bool, i: Install, tries: seq<Attempt>)
  {
    && (forall j :: 0 <= j < |tries| ==> Ran(alloc, PlanAt(alloc, has, i, tries[j].before), tries[j]))
    && (forall j :: 0 < j < |tries| ==> tries[j].before == tries[j - 1].after)
  }

  /** Only a foreign controller of the live EnvoyFilter makes a difference to the plan. */
  lemma HolderIrrelevant(has: Kind -> bool, i: Install, address: string, h: Option<Owner>)
    requires h.None? || h == Us(i)
    ensures PlanOf(has, i, Seen(address, h)) == PlanOf(has, i, Seen(address, Us(i)))
  {
    hide MainPlan;
  }

  /** The writes of the plan are those of the main plan, and then perhaps the EnvoyFilter's. */
  lemma PlanShape(has: Kind -> bool, i: Install, seen: Seen)
    ensures var p, m := PlanOf(has, i, seen), MainPlan(has, i);
            p.writes != [] && p.writes != m.writes ==>
              && HasEpp(i) && i.spec.filter.Some? && (seen.holder.None? || seen.holder == Us(i)) && p.end.Done?
              && p.writes == m.writes + [FilterWrite(i, i.spec.epp.value, i.spec.filter.value, seen.address)]
  {
    hide MainPlan, FilterWrite;
    var m := MainPlan(has, i);
    assert m.writes + [] == m.writes;
  }

  /** An attempt, however it ends, leaves the plan of the next one as it was. */
  lemma PlanKept(alloc: Key -> string, has: Kind -> bool, i: Install, a: Attempt)
    requires Ran(alloc, PlanAt(alloc, has, i, a.before), a)
    ensures PlanAt(alloc, has, i, a.after) == PlanAt(alloc, has, i, a.before)
  {
    var p := PlanAt(alloc, has, i, a.before);
    if p.end.Drop? {
      DropIgnoresCluster(alloc, has, i, a.before, a.after);
    } else {
      var k := PartOf(alloc, p, a);
      PartKept(alloc, has, i, a.before, k);
    }
  }

  lemma DropIgnoresCluster(alloc: Key -> string, has: Kind -> bool, i: Install, c: Objects, d: Objects)
    requires PlanAt(alloc, has, i, c).end.Drop?
    ensures PlanAt(alloc, has, i, d) == PlanAt(alloc, has, i, c)
  {
    hide MainPlan, FilterPlan, See;
    MainRanked(has, i);
    FilterDropFixed(has, i, See(alloc, i, c), See(alloc, i, d));
  }

  /** Whether the EnvoyFilter is to be deleted does not depend on the cluster. */
  lemma FilterDropFixed(has: Kind -> bool, i: Install, seen: Seen, other: Seen)
    requires FilterPlan(has, i, seen).end.Drop?
    ensures FilterPlan(has, i, other) == FilterPlan(has, i, seen)
  {
    hide FilterWrite;
  }

  lemma PartKept(alloc: Key -> string, has: Kind -> bool, i: Install, c: Objects, k: nat)
    requires k <= |PlanAt(alloc, has, i, c).writes|
    ensures PlanAt(alloc, has, i, After(alloc, PlanAt(alloc, has, i, c).writes[..k], c)) == PlanAt(alloc, has, i, c)
  {
    hide PlanOf, MainPlan, FilterWrite, After, See, Ranked;
    var seen := See(alloc, i, c);
    var p, m := PlanAt(alloc, has, i, c), MainPlan(has, i);
    PlanShape(has, i, seen);
    MainRanked(has, i);
    if p.writes == [] {
      assert p.writes[..k] == [];
      EmptyPart(alloc, c);
    } else if p.writes == m.writes || k <= |m.writes| {
      assert p.writes[..k] == m.writes[..k];
      RankedPart(i, m.writes, k);
      SeenKept(alloc, i, m.writes[..k], c);
    } else {
      var w := FilterWrite(i, i.spec.epp.value, i.spec.filter.value, seen.address);
      assert p.writes[..k] == m.writes + [w];
      FilterSeen(alloc, i, m.writes, c, w);
      HolderIrrelevant(has, i, seen.address, seen.holder);
    }
  }

  lemma EmptyPart(alloc: Key -> string, c: Objects)
    ensures After(alloc, [], c) == c
  {
  }

  lemma RankedPart(i: Install, ws: seq<Write>, k: nat)
    requires Ranked(i, ws, 0, 11) && k <= |ws|
    ensures Ranked(i, ws[..k], 0, 11)
  {
    hide Rank, ServiceWrite;
  }

  /** After the EnvoyFilter is written the reconciler reads the same address, and itself as the holder. */
  lemma FilterSeen(alloc: Key -> string, i: Install, ws: seq<Write>, c: Objects, w: Write)
    requires Ranked(i, ws, 0, 11) && HasEpp(i) && i.spec.filter.Some?
    requires w == FilterWrite(i, i.spec.epp.value, i.spec.filter.value, See(alloc, i, c).address)
    ensures See(alloc, i, After(alloc, ws + [w], c)) == Seen(See(alloc, i, c).address, Us(i))
  {
    var d := After(alloc, ws, c);
    AfterAppend(alloc, ws, [w], c);
    assert After(alloc, ws + [w], c) == Apply(alloc, w, d) by {
      assert [w][..0] == [];
      assert After(alloc, [w], d) == Apply(alloc, w, After(alloc, [w][..0], d));
    }
    AddressKept(alloc, ws + [w], c, EppServiceKey(i, i.spec.epp.value));
    FilterClaims(alloc, w, d, i);
    hide After, Apply, Ranked;
  }

  lemma FilterClaims(alloc: Key -> string, w: Write, d: Objects, i: Install)
    requires w.change.claim == Us(i)
    ensures w.key in Apply(alloc, w, d) && Apply(alloc, w, d)[w.key].owner == Us(i)
  {
  }

  /** What is left to do after any attempt ends where the whole plan would have ended. */
  lemma FinishAbsorbs(alloc: Key -> string, has: Kind -> bool, i: Install, a: Attempt)
    requires Ran(alloc, PlanAt(alloc, has, i, a.before), a)
    ensures var p := PlanAt(alloc, has, i, a.before); Finish(alloc, p, a.after) == Finish(alloc, p, a.before)
  {
    hide PlanAt, PlanOf, Ranked, Coherent, After, See;
    var p := PlanAt(alloc, has, i, a.before);
    PlanCoherent(alloc, has, i, a.before);
    AfterAbsorbs(alloc, p.writes, |p.writes|, a.before);
    assert p.writes[..|p.writes|] == p.writes;
    if p.end.Drop? && a.after == Finish(alloc, p, a.before) {
      DropApart(alloc, i, p, After(alloc, p.writes, a.before));
    } else {
      var k := PartOf(alloc, p, a);
      AfterAbsorbs(alloc, p.writes, k, a.before);
    }
  }

  lemma PlanCoherent(alloc: Key -> string, has: Kind -> bool, i: Install, c: Objects)
    ensures var p := PlanAt(alloc, has, i, c);
            && Coherent(p.writes) && Ranked(i, p.writes, 0, 12)
            && (p.end.Drop? ==> p.end.key.kind.EnvoyFilter? && Ranked(i, p.writes, 0, 11))
  {
    hide PlanOf, Ranked, Coherent;
    PlanRanked(has, i, See(alloc, i, c));
    RankedCoherent(i, PlanAt(alloc, has, i, c).writes, 0, 12);
  }

  lemma PartOf(alloc: Key -> string, p: Plan, a: Attempt) returns (k: nat)
    requires Ran(alloc, p, a) && (p.end.Drop? ==> a.after != Finish(alloc, p, a.before))
    ensures k <= |p.writes| && a.after == After(alloc, p.writes[..k], a.before)
  {
    if a.ok {
      k := |p.writes|;
      assert p.writes[..k] == p.writes;
    } else {
      k :| 0 <= k <= |p.writes| && a.after == After(alloc, p.writes[..k], a.before);
    }
  }

  lemma DropApart(alloc: Key -> string, i: Install, p: Plan, d: Objects)
    requires p.end.Drop? && p.end.key.kind.EnvoyFilter? && Ranked(i, p.writes, 0, 11)
    ensures After(alloc, p.writes, d - {p.end.key}) == After(alloc, p.writes, d) - {p.end.key}
  {
    hide After;
    Untouched(alloc, p.writes, d, p.end.key);
  }

  /**
    After any number of attempts, failed at any call or not, the plan and what it would finish with are
    those of the first attempt.
  */
  lemma {:induction false} RetriesAgree(alloc: Key -> string, has: Kind -> bool, i: Install, tries: seq<Attempt>)
    requires Retries(alloc, has, i, tries) && tries != []
    ensures var p, last := PlanAt(alloc, has, i, tries[0].before), tries[|tries| - 1];
            && PlanAt(alloc, has, i, last.before) == p && PlanAt(alloc, has, i, last.after) == p
            && Finish(alloc, p, last.before) == Finish(alloc, p, tries[0].before)
            && Finish(alloc, p, last.after) == Finish(alloc, p, tries[0].before)
    decreases |tries|
  {
    hide PlanAt, Finish, Ran;
    var n := |tries| - 1;
    if n == 0 {
    } else {
      assert tries[..n][n - 1] == tries[n - 1] && tries[..n][0] == tries[0];
      assert Retries(alloc, has, i, tries[..n]);
      RetriesAgree(alloc, has, i, tries[..n]);
    }
    PlanKept(alloc, has, i, tries[n]);
    FinishAbsorbs(alloc, has, i, tries[n]);
  }

  /** Convergence: a success after any attempts is the one success from the original cluster. */
  lemma Converges(alloc: Key -> string, has: Kind -> bool, i: Install, tries: seq<Attempt>)
    requires Retries(alloc, has, i, tries) && tries != [] && tries[|tries| - 1].ok
    ensures var c := tries[0].before;
            var p := PlanAt(alloc, has, i, c);
            Ran(alloc, p, Attempt(c, tries[|tries| - 1].after, true, Edits(alloc, p.writes, c)))
  {
    hide PlanAt, Finish, Edits;
    RetriesAgree(alloc, has, i, tries);
  }

  // ---------- The second success ----------

  /** The EPP Service and the proxy Service are the same object. */
  predicate Clash(i: Install) { HasEpp(i) && EppServiceKey(i, i.spec.epp.value) == ProxyKey(i) }

  /** A write that would change nothing any more. */
  predicate Settled(w: Write, d: Objects) { w.key in d && Mutate(w, d[w.key]) == d[w.key] }

  /** A closure changes nothing exactly if the server holds what it writes, to the letter. */
  lemma SettledMeans(w: Write, d: Objects)
    requires w.key in d
    ensures Settled(w, d) <==>
              && (w.change.content.Some? ==> d[w.key].content == w.change.content.value)
              && (w.change.replicas.Some? ==> d[w.key].replicas == w.change.replicas)
              && (w.change.claim.Some? ==> d[w.key].owner == w.change.claim)
              && Edit(w.change.labels, d[w.key].labels) == d[w.key].labels
  {
    hide Edit;
  }

  lemma SettledIff(alloc: Key -> string, w: Write, d: Objects)
    ensures Apply(alloc, w, d) == d <==> Settled(w, d)
  {
    hide Mutate, Stored;
    if Settled(w, d) { assert d[w.key := d[w.key]] == d; }
    if Apply(alloc, w, d) == d { assert w.key in d; }
  }

  /** Two writes of the plan on one key are the two on the clashing Service. */
  lemma SameKeyClash(i: Install, ws: seq<Write>, j: nat, k: nat)
    requires Ranked(i, ws, 0, 12) && j < k < |ws| && ws[j].key == ws[k].key
    ensures Clash(i) && ws[j] == EppServiceWrite(i, i.spec.epp.value) && ws[k] == ProxyWrite(i)
  {
    hide EppServiceWrite, ProxyWrite, ContentOnly;
    ServiceKeys(i);
    assert Rank(ws[j]) < Rank(ws[k]);
  }

  lemma ServiceKeys(i: Install)
    ensures ProxyWrite(i).key == ProxyKey(i) && Rank(ProxyWrite(i)) == 7
    ensures HasEpp(i) ==> EppServiceWrite(i, i.spec.epp.value).key == EppServiceKey(i, i.spec.epp.value)
    ensures HasEpp(i) ==> Rank(EppServiceWrite(i, i.spec.epp.value)) == 5
  {
    hide ProxyContent, CrossLabels;
  }

  /** Whatever the cluster looked like, a success settles every write the plan does not itself undo. */
  lemma SuccessSettles(alloc: Key -> string, has: Kind -> bool, i: Install, a: Attempt, w: Write)
    requires Ran(alloc, PlanAt(alloc, has, i, a.before), a) && a.ok
    requires w in PlanAt(alloc, has, i, a.before).writes
    requires Clash(i) ==> w != EppServiceWrite(i, i.spec.epp.value)
    ensures Settled(w, a.after)
  {
    hide PlanAt, Ranked, Coherent, After, Mutate, Stored, Clash, EppServiceWrite, ProxyWrite;
    var p := PlanAt(alloc, has, i, a.before);
    PlanCoherent(alloc, has, i, a.before);
    var n :| 0 <= n < |p.writes| && p.writes[n] == w;
    forall j | n < j < |p.writes| ensures p.writes[j].key != w.key {
      if p.writes[j].key == w.key { SameKeyClash(i, p.writes, n, j); }
    }
    LastOnIs(p.writes, n);
    AfterAt(alloc, p.writes, a.before, w.key);
    MutateAbsorbs(w, w, Base(alloc, p.writes, w.key, a.before));
    if p.end.Drop? { NotDropped(i, p.writes, n); }
  }

  /** Of the writes on the key of w, the one that creates the object if it is missing, */
  function Creator(i: Install, w: Write): Write
  {
    if Clash(i) && w.key == ProxyKey(i) then EppServiceWrite(i, i.spec.epp.value) else w
  }

  /** and the one that has the last word on it. */
  function Keeper(i: Install, w: Write): Write { if Clash(i) && w.key == ProxyKey(i) then ProxyWrite(i) else w }

  /**
    What a success leaves under a key of the plan: the closure applied to the live object, or to the object
    sent if there was none. So labels set outside the closure count at creation only, and labels the closure
    does not name survive a merge. A Service of two writes is created by the EPP's and kept by the proxy's.
  */
  lemma SuccessObject(alloc: Key -> string, has: Kind -> bool, i: Install, a: Attempt, w: Write)
    requires Ran(alloc, PlanAt(alloc, has, i, a.before), a) && a.ok
    requires w in PlanAt(alloc, has, i, a.before).writes
    ensures w.key in a.after
    ensures w.key in a.before ==> a.after[w.key] == Mutate(Keeper(i, w), a.before[w.key])
    ensures w.key !in a.before ==>
              a.after[w.key] == Stored(alloc, w.key, Mutate(Keeper(i, w), Fresh(Creator(i, w))))
  {
    hide PlanAt, Ranked, Coherent, After, Mutate, Stored, Clash, Creator, Keeper;
    var p := PlanAt(alloc, has, i, a.before);
    PlanCoherent(alloc, has, i, a.before);
    PlanHasServices(alloc, has, i, a.before);
    OnKey(i, p.writes, w);
    AfterAt(alloc, p.writes, a.before, w.key);
    MutateStored(alloc, Keeper(i, w), w.key, Fresh(Creator(i, w)));
    if p.end.Drop? {
      var n :| 0 <= n < |p.writes| && p.writes[n] == w;
      NotDropped(i, p.writes, n);
    }
  }

  lemma OnKey(i: Install, ws: seq<Write>, w: Write)
    requires Ranked(i, ws, 0, 12) && w in ws
    requires ProxyWrite(i) in ws && (HasEpp(i) ==> EppServiceWrite(i, i.spec.epp.value) in ws)
    ensures FirstOn(ws, w.key) == Some(Creator(i, w)) && LastOn(ws, w.key) == Some(Keeper(i, w))
  {
    hide Ranked, Rank, EppServiceWrite, ProxyWrite;
    ServiceKeys(i);
    var first, last := Creator(i, w), Keeper(i, w);
    var m :| 0 <= m < |ws| && ws[m] == first;
    var n :| 0 <= n < |ws| && ws[n] == last;
    forall j | 0 <= j < m ensures ws[j].key != w.key {
      if ws[j].key == w.key { SameKeyClash(i, ws, j, m); }
    }
    forall j | n < j < |ws| ensures ws[j].key != w.key {
      if ws[j].key == w.key { SameKeyClash(i, ws, n, j); }
    }
    FirstOnIs(ws, m);
    LastOnIs(ws, n);
  }

  lemma {:induction false} FirstOnIs(ws: seq<Write>, n: nat)
    requires n < |ws| && forall j :: 0 <= j < n ==> ws[j].key != ws[n].key
    ensures FirstOn(ws, ws[n].key) == Some(ws[n])
    decreases |ws|
  {
    var m := |ws| - 1;
    if n < m {
      FirstOnIs(ws[..m], n);
    } else {
      LastOnMember(ws[..m], ws[n].key);
    }
  }

  lemma NotDropped(i: Install, ws: seq<Write>, n: nat)
    requires Ranked(i, ws, 0, 11) && n < |ws|
    ensures !ws[n].key.kind.EnvoyFilter?
  {
  }

  /** Under a clash the EPP's write on the shared Service never settles: the proxy's ports replace it. */
  lemma ClashUnsettled(alloc: Key -> string, has: Kind -> bool, i: Install, a: Attempt)
    requires Ran(alloc, PlanAt(alloc, has, i, a.before), a) && a.ok && Clash(i)
    requires ProxyWrite(i) in PlanAt(alloc, has, i, a.before).writes
    ensures !Settled(EppServiceWrite(i, i.spec.epp.value), a.after)
  {
    hide PlanAt, Ran, Rank;
    var e := i.spec.epp.value;
    assert ProxyWrite(i) != EppServiceWrite(i, e) by { ServiceKeys(i); }
    SuccessSettles(alloc, has, i, a, ProxyWrite(i));
    assert Port("grpc", e.port, 9002).name != Port("http", i.spec.proxy.port, i.spec.proxy.targetPort).name;
    assert [Port("grpc", e.port, 9002)][0] != [Port("http", i.spec.proxy.port, i.spec.proxy.targetPort)][0];
  }

  /** A second success in a row makes no Create or Update call exactly when the Services do not clash. */
  lemma SecondRunSilentIff(alloc: Key -> string, has: Kind -> bool, i: Install, a: Attempt, b: Attempt)
    requires Ran(alloc, PlanAt(alloc, has, i, a.before), a) && a.ok
    requires Ran(alloc, PlanAt(alloc, has, i, b.before), b) && b.ok && b.before == a.after
    ensures b.after == a.after
    ensures b.edits == 0 <==> !Clash(i)
  {
    hide PlanAt, After, Edits, Apply, EppServiceWrite, ProxyWrite, Settled;
    var p := PlanAt(alloc, has, i, a.before);
    PlanKept(alloc, has, i, a);
    FinishAbsorbs(alloc, has, i, a);
    SilentIff(alloc, p.writes, a.after);
    PlanHasServices(alloc, has, i, a.before);
    if Clash(i) {
      ClashUnsettled(alloc, has, i, a);
      var w := EppServiceWrite(i, i.spec.epp.value);
      SettledIff(alloc, w, a.after);
      var j :| 0 <= j < |p.writes| && p.writes[j] == w;
    } else {
      forall j | 0 <= j < |p.writes| ensures Apply(alloc, p.writes[j], a.after) == a.after {
        SuccessSettles(alloc, has, i, a, p.writes[j]);
        SettledIff(alloc, p.writes[j], a.after);
      }
    }
  }

  // ---------- What a sound plan contains ----------

  lemma InThen(p: Plan, q: Plan, w: Write)
    requires !Then(p, q).end.Broken? && !p.end.Drop?
    ensures p.end.Done? && !q.end.Broken?
    ensures w in p.writes || w in q.writes ==> w in Then(p, q).writes
  {
  }

  lemma NoDrop(p: Plan, q: Plan)
    requires !p.end.Drop? && !q.end.Drop?
    ensures !Then(p, q).end.Drop?
  {
  }

  lemma PlanHasServices(alloc: Key -> string, has: Kind -> bool, i: Install, c: Objects)
    requires !PlanAt(alloc, has, i, c).end.Broken?
    ensures ProxyWrite(i) in PlanAt(alloc, has, i, c).writes
    ensures HasEpp(i) ==> EppServiceWrite(i, i.spec.epp.value) in PlanAt(alloc, has, i, c).writes
  {
    MainIn(alloc, has, i, c, ProxyWrite(i));
    ServicesIn(has, i, ProxyWrite(i));
    if HasEpp(i) {
      var w := EppServiceWrite(i, i.spec.epp.value);
      MainIn(alloc, has, i, c, w);
      ServicesIn(has, i, w);
      EppIn(i, i.spec.epp.value, w);
    }
  }

  lemma MainIn(alloc: Key -> string, has: Kind -> bool, i: Install, c: Objects, w: Write)
    requires !PlanAt(alloc, has, i, c).end.Broken?
    ensures MainPlan(has, i).end.Done? && i.spec.simNs != ""
    ensures w in MainPlan(has, i).writes ==> w in PlanAt(alloc, has, i, c).writes
    ensures w in FilterPlan(has, i, See(alloc, i, c)).writes ==> w in PlanAt(alloc, has, i, c).writes
    ensures !FilterPlan(has, i, See(alloc, i, c)).end.Broken?
  {
    hide MainPlan, FilterPlan, See, Then;
    MainRanked(has, i);
    InThen(MainPlan(has, i), FilterPlan(has, i, See(alloc, i, c)), w);
  }

  lemma ServicesIn(has: Kind -> bool, i: Install, w: Write)
    requires MainPlan(has, i).end.Done?
    ensures w == ProxyWrite(i) ==> w in MainPlan(has, i).writes
    ensures w in EppPlan(i).writes || w in GatewayPlan(has, i).writes || w in TrafficPlan(has, i).writes ==>
              w in MainPlan(has, i).writes
    ensures EppPlan(i).end.Done? && GatewayPlan(has, i).end.Done? && TrafficPlan(has, i).end.Done?
  {
    hide EppPlan, GatewayPlan, TrafficPlan, Then, ProxyWrite;
    MainRanked(has, i);
    GatewayRanked(has, i);
    InThen(ServicesPlan(has, i), TrafficPlan(has, i), w);
    NoDrop(EppPlan(i), GatewayPlan(has, i));
    InThen(Then(EppPlan(i), GatewayPlan(has, i)), Just(ProxyWrite(i)), w);
    InThen(EppPlan(i), GatewayPlan(has, i), w);
  }

  function EppWrites(i: Install, e: EppSpec): set<Write>
  {
    {AccountWrite(i, e), RoleWrite(i, e), BindingWrite(i, e), ConfigWrite(i, e), DeploymentWrite(i, e),
     EppServiceWrite(i, e)}
  }

  lemma EppIn(i: Install, e: EppSpec, w: Write)
    requires EppPlanOf(i, e).end.Done?
    ensures w in EppWrites(i, e) ==> w in EppPlanOf(i, e).writes
    ensures AccountWrite(i, e).key.ns == i.ns
  {
    hide AccountWrite, RoleWrite, BindingWrite, ConfigWrite, DeploymentWrite, EppServiceWrite, Then;
    OwnedEnds(i, e);
    var w0, w3, w4, w5 := AccountWrite(i, e), ConfigWrite(i, e), DeploymentWrite(i, e), EppServiceWrite(i, e);
    NoDrop(AccessPlan(i, e), WorkloadPlan(i, e));
    InThen(Then(AccessPlan(i, e), WorkloadPlan(i, e)), Owned(i, w5), w);
    InThen(AccessPlan(i, e), WorkloadPlan(i, e), w);
    InThen(Owned(i, w0), RbacPlan(i, e), w);
    InThen(Just(RoleWrite(i, e)), Just(BindingWrite(i, e)), w);
    InThen(Owned(i, w3), Owned(i, w4), w);
  }

  predicate HasRouting(i: Install) { i.spec.routing.Some? && i.spec.routing.value.enabled }

  predicate HasRule(i: Install) { i.spec.rule.Some? && i.spec.rule.value.enabled }

  lemma TrafficIn(has: Kind -> bool, i: Install, w: Write)
    requires TrafficPlan(has, i).end.Done?
    ensures HasRouting(i) && has(ReferenceGrant) && w == GrantWrite(i) ==> w in TrafficPlan(has, i).writes
    ensures HasRouting(i) && has(HTTPRoute) && w == RouteWrite(i, i.spec.routing.value) ==>
              w in TrafficPlan(has, i).writes
    ensures HasRule(i) && has(DestinationRule) && w == RuleWrite(i, i.spec.rule.value) ==>
              w in TrafficPlan(has, i).writes
  {
    hide GrantWrite, RouteWrite, RuleWrite, Then;
    RoutingRanked(has, i);
    InThen(RoutingPlan(has, i), RulePlan(has, i), w);
    if i.spec.routing.Some? && i.spec.routing.value.enabled {
      InThen(GrantPlan(has, i), RoutePlan(has, i, i.spec.routing.value), w);
    }
  }

  // ---------- Soundness of a resource ----------

  /** What the part of the plan before the EnvoyFilter needs. */
  predicate MainSound(has: Kind -> bool, i: Install)
  {
    var own := i.spec.schedNs == i.ns;
    && (HasEpp(i) ==> own)
    && (i.spec.gateway.Some? && i.spec.gateway.value.enabled && has(Gateway) ==> own)
    && (HasRouting(i) && has(HTTPRoute) ==> own)
    && (HasRouting(i) && i.spec.routing.value.backendType == POOL_BACKEND ==>
          i.spec.routing.value.pool.Some? && i.spec.routing.value.pool.value.name != "")
  }

  /** What the EnvoyFilter needs of the resource and of the cluster. */
  predicate FilterSound(has: Kind -> bool, i: Install, seen: Seen)
  {
    i.spec.filter.Some? && i.spec.filter.value.enabled ==>
      && HasEpp(i) && i.spec.filter.value.selector != map[]
      && (has(EnvoyFilter) ==>
            seen.address != "" && (seen.holder.None? || seen.holder == Us(i)) && i.spec.schedNs == i.ns)
  }

  lemma BrokenThen(p: Plan, q: Plan)
    requires !p.end.Drop?
    ensures Then(p, q).end.Broken? <==> p.end.Broken? || q.end.Broken?
    ensures !q.end.Drop? ==> !Then(p, q).end.Drop?
  {
  }

  lemma EppSound(i: Install, e: EppSpec)
    ensures EppPlanOf(i, e).end.Done? <==> i.spec.schedNs == i.ns
  {
    OwnedKeys(i, e);
    OwnedEnds(i, e);
    hide AccountWrite, RoleWrite, BindingWrite, ConfigWrite, DeploymentWrite, EppServiceWrite, Then;
    var w0, w3, w4, w5 := AccountWrite(i, e), ConfigWrite(i, e), DeploymentWrite(i, e), EppServiceWrite(i, e);
    BrokenThen(Owned(i, w0), RbacPlan(i, e));
    BrokenThen(Owned(i, w3), Owned(i, w4));
    BrokenThen(AccessPlan(i, e), WorkloadPlan(i, e));
    BrokenThen(Then(AccessPlan(i, e), WorkloadPlan(i, e)), Owned(i, w5));
  }

  lemma OwnedKeys(i: Install, e: EppSpec)
    ensures AccountWrite(i, e).key.ns == ConfigWrite(i, e).key.ns == i.spec.schedNs
    ensures DeploymentWrite(i, e).key.ns == EppServiceWrite(i, e).key.ns == i.spec.schedNs
  {
    hide EppContainer, EppLabels, PluginsConfig;
  }

  lemma RoutingSound(has: Kind -> bool, i: Install)
    ensures RoutingPlan(has, i).end.Broken? <==>
              HasRouting(i) && ((has(HTTPRoute) && i.spec.schedNs != i.ns)
                || (i.spec.routing.value.backendType == POOL_BACKEND
                    && (i.spec.routing.value.pool.None? || i.spec.routing.value.pool.value.name == "")))
  {
    hide GrantWrite, Then;
    if HasRouting(i) {
      BrokenThen(GrantPlan(has, i), RoutePlan(has, i, i.spec.routing.value));
    }
  }

  /** The exact condition under which a plan can succeed, in terms of the resource and of what is read. */
  lemma SoundIff(has: Kind -> bool, i: Install, seen: Seen)
    ensures !PlanOf(has, i, seen).end.Broken? <==> i.spec.simNs != "" && MainSound(has, i) && FilterSound(has, i, seen)
  {
    hide EppPlanOf, RoutingPlan, RulePlan, ProxyWrite, GatewayWrite, FilterWrite, Then;
    if HasEpp(i) { EppSound(i, i.spec.epp.value); }
    RoutingSound(has, i);
    MainRanked(has, i);
    GatewayRanked(has, i);
    RoutingRanked(has, i);
    RuleRanked(has, i);
    GatewaySound(has, i);
    FilterEnds(has, i, seen);
    hide GatewayPlan, FilterPlan;
    BrokenThen(EppPlan(i), GatewayPlan(has, i));
    BrokenThen(Then(EppPlan(i), GatewayPlan(has, i)), Just(ProxyWrite(i)));
    BrokenThen(RoutingPlan(has, i), RulePlan(has, i));
    BrokenThen(ServicesPlan(has, i), TrafficPlan(has, i));
    BrokenThen(MainPlan(has, i), FilterPlan(has, i, seen));
    if HasEpp(i) { EppNotDropped(i); }
  }

  lemma EppNotDropped(i: Install)
    requires HasEpp(i)
    ensures !EppPlanOf(i, i.spec.epp.value).end.Drop?
  {
    EppRanked(i, i.spec.epp.value);
  }

  lemma GatewaySound(has: Kind -> bool, i: Install)
    ensures GatewayPlan(has, i).end.Broken? <==>
              i.spec.gateway.Some? && i.spec.gateway.value.enabled && has(Gateway) && i.spec.schedNs != i.ns
  {
  }

  lemma FilterEnds(has: Kind -> bool, i: Install, seen: Seen)
    ensures FilterPlan(has, i, seen).end.Broken? <==> !FilterSound(has, i, seen)
  {
    hide CrossLabels;
  }

  // ---------- Frame ----------

  predicate Named(p: Plan, k: Key)
  {
    (exists j :: 0 <= j < |p.writes| && p.writes[j].key == k) || (p.end.Drop? && p.end.key == k)
  }

  /** No attempt, whole or broken off, touches an object the plan does not name. */
  lemma AttemptFrame(alloc: Key -> string, p: Plan, a: Attempt, k: Key)
    requires Ran(alloc, p, a) && !Named(p, k)
    ensures k in a.after <==> k in a.before
    ensures k in a.before ==> a.after[k] == a.before[k]
  {
    hide After;
    if !p.end.Drop? || a.after != Finish(alloc, p, a.before) {
      var n := PartOf(alloc, p, a);
      Untouched(alloc, p.writes[..n], a.before, k);
    } else {
      Untouched(alloc, p.writes, a.before, k);
    }
  }
}
