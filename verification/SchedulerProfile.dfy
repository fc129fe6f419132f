/**
  A scheduler profile: registration of plugins and one scheduling cycle (filters, weighted scorers,
  picker). The request and the cycle state are fixed during a cycle, so plugins are functions of
  the pods they are given. Scores are reals.
*/
module SchedulerProfile {
  import opened Basics

  type Pod = string

  datatype ScoredPod = ScoredPod(pod: Pod, score: real)
  datatype Filter = Filter(name: string, run: seq<Pod> -> seq<Pod>)
  datatype Scorer = Scorer(name: string, score: seq<Pod> -> map<Pod, real>, weight: int)
  datatype Picker = Picker(name: string, pick: seq<ScoredPod> -> Option<seq<Pod>>)

  /** A plugin object and the roles it can play. A weighted scorer is unwrapped for its other roles. */
  datatype Plugin =
    | WeightedScorer(scorer: Scorer, filter: Option<Filter>, picker: Option<Picker>)
    | Plain(name: string, isScorer: bool, filter: Option<Filter>, picker: Option<Picker>)

  datatype Profile = Profile(filters: seq<Filter>, scorers: seq<Scorer>, picker: Option<Picker>)

  datatype RegisterError = UnweightedScorer(name: string) | SecondPicker(name: string, registered: string)

  // ---------- Registration ----------

  datatype Registered = Registered(profile: Profile, err: Option<RegisterError>)

  function RegisterOne(p: Profile, g: Plugin): Registered
  {
    if g.Plain? && g.isScorer then Registered(p, Some(UnweightedScorer(g.name)))
    else
      var q := p.(scorers := p.scorers + ScorerRole(g), filters := p.filters + FilterRole(g));
      if g.picker.None? then Registered(q, None)
      else if p.picker.Some? then Registered(q, Some(SecondPicker(g.picker.value.name, p.picker.value.name)))
      else Registered(q.(picker := g.picker), None)
  }

  function Register(p: Profile, gs: seq<Plugin>): Registered
    decreases |gs|
  {
    if gs == [] then Registered(p, None)
    else
      var r := RegisterOne(p, gs[0]);
      if r.err.Some? then r else Register(r.profile, gs[1..])
  }

  function ScorerRole(g: Plugin): seq<Scorer> { if g.WeightedScorer? then [g.scorer] else [] }
  function FilterRole(g: Plugin): seq<Filter> { if g.filter.Some? then [g.filter.value] else [] }
  function PickerRole(g: Plugin): seq<Picker> { if g.picker.Some? then [g.picker.value] else [] }

  // ---------- Filters ----------

  /** The loop with early exit. */
  function RunFilters(fs: seq<Filter>, pods: seq<Pod>): seq<Pod>
    decreases |fs|
  {
    if fs == [] then pods
    else
      var left := fs[0].run(pods);
      if left == [] then [] else RunFilters(fs[1..], left)
  }

  /** How many filters that loop calls. */
  function FiltersCalled(fs: seq<Filter>, pods: seq<Pod>): (n: nat)
    ensures n <= |fs|
    decreases |fs|
  {
    if fs == [] then 0
    else
      var left := fs[0].run(pods);
      if left == [] then 1 else 1 + FiltersCalled(fs[1..], left)
  }

  // ---------- Scores ----------

  function EnforceScoreRange(score: real): real
  {
    if score < 0.0 then 0.0 else if score > 1.0 then 1.0 else score
  }

  /** What one scorer's result adds to a pod; a pod it does not mention gains nothing. */
  function Gain(scores: map<Pod, real>, weight: int, pod: Pod): real
  {
    if pod in scores then EnforceScoreRange(scores[pod]) * weight as real else 0.0
  }

  function Term(s: Scorer, pods: seq<Pod>, pod: Pod): real
  {
    Gain(s.score(pods), s.weight, pod)
  }

  function WeightedSum(ss: seq<Scorer>, pods: seq<Pod>, pod: Pod): real
  {
    if ss == [] then 0.0 else WeightedSum(ss[..|ss| - 1], pods, pod) + Term(ss[|ss| - 1], pods, pod)
  }

  function Given(pods: seq<Pod>): set<Pod> { set p | p in pods }

  function Mentioned(ss: seq<Scorer>, pods: seq<Pod>): set<Pod>
  {
    if ss == [] then {} else Mentioned(ss[..|ss| - 1], pods) + ss[|ss| - 1].score(pods).Keys
  }

  /** m holds, for every pod given or mentioned, the weighted sum of its clamped scores. */
  ghost predicate ScoresAre(m: map<Pod, real>, ss: seq<Scorer>, pods: seq<Pod>)
  {
    && m.Keys == Given(pods) + Mentioned(ss, pods)
    && forall p :: p in m ==> m[p] == WeightedSum(ss, pods, p)
  }

  // ---------- The picker ----------

  /** order lists every scored pod exactly once, with its score. */
  ghost predicate Enumerates(order: seq<ScoredPod>, m: map<Pod, real>)
  {
    && (forall i :: 0 <= i < |order| ==> order[i].pod in m && order[i].score == m[order[i].pod])
    && (forall i, j :: 0 <= i < j < |order| ==> order[i].pod != order[j].pod)
    && (forall p :: p in m ==> exists i :: 0 <= i < |order| && order[i].pod == p)
  }

  datatype RunResult = NoPodsAvailable | NilPicker | Result(targets: Option<seq<Pod>>)

  datatype PluginCall = Filtered(name: string) | Scored(name: string) | Picked(name: string)

  function FilterCalls(fs: seq<Filter>): seq<PluginCall>
  {
    if fs == [] then [] else FilterCalls(fs[..|fs| - 1]) + [Filtered(fs[|fs| - 1].name)]
  }

  function ScorerCalls(ss: seq<Scorer>): seq<PluginCall>
  {
    if ss == [] then [] else ScorerCalls(ss[..|ss| - 1]) + [Scored(ss[|ss| - 1].name)]
  }

  class SchedulerProfile {
    var filters: seq<Filter>
    var scorers: seq<Scorer>
    var picker: Option<Picker>
    /** The plugin calls made so far. */
    var log: seq<PluginCall>

    ghost function View(): Profile
      reads this
    {
      Profile(filters, scorers, picker)
    }

    constructor ()
      ensures View() == Profile([], [], None) && log == []
    {
      filters, scorers, picker, log := [], [], None, [];
    }

    method AddPlugins(gs: seq<Plugin>) returns (err: Option<RegisterError>)
      modifies this
      ensures Registered(View(), err) == Register(old(View()), gs)
      ensures log == old(log)
    {
      hide RegisterOne;
      var i := 0;
      while i < |gs|
        invariant 0 <= i <= |gs| && log == old(log)
        invariant Register(old(View()), gs) == Register(View(), gs[i..])
      {
        assert gs[i..][0] == gs[i] && gs[i..][1..] == gs[i + 1..];
        err := AddPlugin(gs[i]);
        if err.Some? { return; }
        i := i + 1;
      }
      err := None;
    }

    method AddPlugin(g: Plugin) returns (err: Option<RegisterError>)
      modifies this
      ensures Registered(View(), err) == RegisterOne(old(View()), g)
      ensures log == old(log)
    {
      if g.WeightedScorer? {
        scorers := scorers + [g.scorer];
      } else if g.isScorer {
        return Some(UnweightedScorer(g.name));
      }
      if g.filter.Some? {
        filters := filters + [g.filter.value];
      }
      if g.picker.Some? {
        if picker.Some? {
          return Some(SecondPicker(g.picker.value.name, picker.value.name));
        }
        picker := g.picker;
      }
      err := None;
    }

    method RunFilterPlugins(pods: seq<Pod>) returns (filtered: seq<Pod>)
      modifies this`log
      ensures filtered == RunFilters(filters, pods)
      ensures log == old(log) + FilterCalls(filters[..FiltersCalled(filters, pods)])
    {
      hide RunFilters, FiltersCalled, FilterCalls;
      filtered := pods;
      var i := 0;
      NoFilterYet(filters);
      while i < |filters|
        invariant 0 <= i <= |filters|
        invariant RunFilters(filters, pods) == RunFilters(filters[i..], filtered)
        invariant FiltersCalled(filters, pods) == i + FiltersCalled(filters[i..], filtered)
        invariant log == old(log) + FilterCalls(filters[..i])
      {
        var f := filters[i];
        OneMoreFilter(filters, i, filtered);
        filtered := f.run(filtered);
        log := log + [Filtered(f.name)];
        i := i + 1;
        if filtered == [] { return; }
      }
      AllFiltersRun(filters, filtered);
    }

    method RunScorerPlugins(pods: seq<Pod>) returns (m: map<Pod, real>)
      modifies this`log
      ensures ScoresAre(m, scorers, pods)
      ensures log == old(log) + ScorerCalls(scorers)
    {
      m := map[];
      for k := 0 to |pods|
        invariant m.Keys == Given(pods[..k]) && forall p :: p in m ==> m[p] == 0.0
        invariant log == old(log)
      {
        assert Given(pods[..k + 1]) == Given(pods[..k]) + {pods[k]};
        m := m[pods[k] := 0.0];
      }
      assert pods[..|pods|] == pods;
      for i := 0 to |scorers|
        invariant ScoresAre(m, scorers[..i], pods)
        invariant log == old(log) + ScorerCalls(scorers[..i])
      {
        var s := scorers[i];
        assert scorers[..i + 1][..i] == scorers[..i] && scorers[..i + 1][i] == s;
        var next := Accumulate(m, s.score(pods), s.weight);
        AccumulatedScores(m, next, scorers[..i + 1], pods);
        m := next;
        log := log + [Scored(s.name)];
      }
      assert scorers[..|scorers|] == scorers;
    }

    /** The picker gets every scored pod once, in an arbitrary order. */
    method RunPickerPlugin(p: Picker, m: map<Pod, real>) returns (r: Option<seq<Pod>>, ghost order: seq<ScoredPod>)
      modifies this`log
      ensures Enumerates(order, m) && r == p.pick(order)
      ensures log == old(log) + [Picked(p.name)]
    {
      var scored := Listing(m);
      order := scored;
      log := log + [Picked(p.name)];
      r := p.pick(scored);
    }

    /** Runs one cycle; scorers and picker are reached only if some pod survives the filters. */
    method Run(pods: seq<Pod>) returns (r: RunResult, ghost m: map<Pod, real>, ghost order: seq<ScoredPod>)
      modifies this`log
      ensures r == NoPodsAvailable <==> RunFilters(filters, pods) == []
      ensures r == NilPicker <==> RunFilters(filters, pods) != [] && picker.None?
      ensures log == old(log) + CycleCalls(View(), pods)
      ensures r.Result? ==> ScoresAre(m, scorers, RunFilters(filters, pods)) && Enumerates(order, m)
      ensures r.Result? ==> picker.Some? && r == Result(picker.value.pick(order))
    {
      hide ScoresAre, Enumerates, RunFilters, FiltersCalled, FilterCalls, ScorerCalls;
      order, m := [], map[];
      var filtered := RunFilterPlugins(pods);
      if |filtered| == 0 { return NoPodsAvailable, map[], []; }
      var scores := RunScorerPlugins(filtered);
      if picker.None? { return NilPicker, map[], []; }
      m := scores;
      var targets;
      targets, order := RunPickerPlugin(picker.value, scores);
      r := Result(targets);
    }
  }

  lemma NoFilterYet(fs: seq<Filter>)
    ensures fs[0..] == fs && FilterCalls(fs[..0]) == []
  {
  }

  lemma AllFiltersRun(fs: seq<Filter>, pods: seq<Pod>)
    ensures RunFilters(fs[|fs|..], pods) == pods && FiltersCalled(fs[|fs|..], pods) == 0
  {
  }

  /** One turn of the filter loop. */
  lemma OneMoreFilter(fs: seq<Filter>, i: nat, pods: seq<Pod>)
    requires i < |fs|
    ensures var left := fs[i].run(pods);
            && RunFilters(fs[i..], pods) == (if left == [] then [] else RunFilters(fs[i + 1..], left))
            && FiltersCalled(fs[i..], pods) == (if left == [] then 1 else 1 + FiltersCalled(fs[i + 1..], left))
    ensures FilterCalls(fs[..i + 1]) == FilterCalls(fs[..i]) + [Filtered(fs[i].name)]
  {
    assert fs[i..][0] == fs[i] && fs[i..][1..] == fs[i + 1..];
    assert fs[..i + 1][..i] == fs[..i] && fs[..i + 1][i] == fs[i];
  }

  /** The plugin calls of one cycle. */
  function CycleCalls(p: Profile, pods: seq<Pod>): seq<PluginCall>
  {
    FilterCalls(p.filters[..FiltersCalled(p.filters, pods)])
    + (if RunFilters(p.filters, pods) == [] then []
       else ScorerCalls(p.scorers) + (if p.picker.None? then [] else [Picked(p.picker.value.name)]))
  }

  /** r adds one scorer's result to m. */
  ghost predicate Adds(r: map<Pod, real>, m: map<Pod, real>, scores: map<Pod, real>, weight: int)
  {
    && r.Keys == m.Keys + scores.Keys
    && forall p :: p in r ==> r[p] == (if p in m then m[p] else 0.0) + Gain(scores, weight, p)
  }

  lemma AccumulatedScores(m: map<Pod, real>, r: map<Pod, real>, ss: seq<Scorer>, pods: seq<Pod>)
    requires ss != []
    requires ScoresAre(m, ss[..|ss| - 1], pods) && Adds(r, m, ss[|ss| - 1].score(pods), ss[|ss| - 1].weight)
    ensures ScoresAre(r, ss, pods)
  {
    hide Gain;
    var before, s := ss[..|ss| - 1], ss[|ss| - 1];
    forall p | p in r ensures r[p] == WeightedSum(ss, pods, p) {
      assert r[p] == (if p in m then m[p] else 0.0) + Term(s, pods, p);
      if p !in m { NotMentioned(before, pods, p); }
    }
  }

  lemma {:induction false} NotMentioned(ss: seq<Scorer>, pods: seq<Pod>, p: Pod)
    requires p !in Mentioned(ss, pods)
    ensures WeightedSum(ss, pods, p) == 0.0
    decreases |ss|
  {
    if ss == [] {
    } else {
      NotMentioned(ss[..|ss| - 1], pods, p);
    }
  }

  /** r adds to m what a scorer's result holds for the pods outside todo. */
  ghost predicate AddsSoFar(r: map<Pod, real>, m: map<Pod, real>, scores: map<Pod, real>, weight: int, todo: set<Pod>)
  {
    && todo <= scores.Keys
    && r.Keys == m.Keys + (scores.Keys - todo)
    && forall p :: p in r ==>
         r[p] == (if p in m then m[p] else 0.0) + (if p in todo then 0.0 else Gain(scores, weight, p))
  }

  lemma AddsNone(m: map<Pod, real>, scores: map<Pod, real>, weight: int)
    ensures AddsSoFar(m, m, scores, weight, scores.Keys)
  {
  }

  lemma AddOne(r: map<Pod, real>, m: map<Pod, real>, scores: map<Pod, real>, weight: int, todo: set<Pod>, pod: Pod)
    requires AddsSoFar(r, m, scores, weight, todo) && pod in todo
    ensures var before := if pod in r then r[pod] else 0.0;
            AddsSoFar(r[pod := before + Gain(scores, weight, pod)], m, scores, weight, todo - {pod})
  {
  }

  /** Adds one scorer's clamped, weighted scores, visiting its map in an arbitrary order. */
  method Accumulate(m: map<Pod, real>, scores: map<Pod, real>, weight: int) returns (r: map<Pod, real>)
    ensures Adds(r, m, scores, weight)
  {
    r := m;
    var todo := scores.Keys;
    hide AddsSoFar, Adds, Gain;
    AddsNone(m, scores, weight);
    while todo != {}
      invariant AddsSoFar(r, m, scores, weight, todo)
      decreases |todo|
    {
      var pod :| pod in todo;
      AddOne(r, m, scores, weight, todo, pod);
      r := r[pod := (if pod in r then r[pod] else 0.0) + Gain(scores, weight, pod)];
      todo := todo - {pod};
    }
    AddsAll(r, m, scores, weight);
  }

  lemma AddsAll(r: map<Pod, real>, m: map<Pod, real>, scores: map<Pod, real>, weight: int)
    requires AddsSoFar(r, m, scores, weight, {})
    ensures Adds(r, m, scores, weight)
  {
  }

  /** The scored pods as a slice, in an arbitrary order. */
  method Listing(m: map<Pod, real>) returns (order: seq<ScoredPod>)
    ensures |order| == |m| && Enumerates(order, m)
  {
    order := [];
    var todo := m.Keys;
    while todo != {}
      invariant todo <= m.Keys && |order| + |todo| == |m|
      invariant forall i :: 0 <= i < |order| ==>
                  order[i].pod in m && order[i].pod !in todo && order[i].score == m[order[i].pod]
      invariant forall i, j :: 0 <= i < j < |order| ==> order[i].pod != order[j].pod
      invariant forall p :: p in m && p !in todo ==> exists i :: 0 <= i < |order| && order[i].pod == p
      decreases |todo|
    {
      var pod :| pod in todo;
      var longer := order + [ScoredPod(pod, m[pod])];
      assert longer[|order|].pod == pod;
      forall p | p in m && p !in todo - {pod} ensures exists i :: 0 <= i < |longer| && longer[i].pod == p {
        if p != pod {
          var i :| 0 <= i < |order| && order[i].pod == p;
          assert longer[i].pod == p;
        }
      }
      order := longer;
      todo := todo - {pod};
    }
  }
}
