/** What registering plugins amounts to, over any sequence of AddPlugins calls. */
module SchedulerRegistration {
  import opened Basics
  import opened SchedulerProfile

  /** The scorers among plugins, in order; and so on for the other roles. */
  function ScorersOf(gs: seq<Plugin>): seq<Scorer>
  {
    if gs == [] then [] else (if gs[0].WeightedScorer? then [gs[0].scorer] else []) + ScorersOf(gs[1..])
  }

  function FiltersOf(gs: seq<Plugin>): seq<Filter>
  {
    if gs == [] then [] else (if gs[0].filter.Some? then [gs[0].filter.value] else []) + FiltersOf(gs[1..])
  }

  function PickersOf(gs: seq<Plugin>): seq<Picker>
  {
    if gs == [] then [] else (if gs[0].picker.Some? then [gs[0].picker.value] else []) + PickersOf(gs[1..])
  }

  lemma RolesOfOne(g: Plugin)
    ensures ScorersOf([g]) == ScorerRole(g) && FiltersOf([g]) == FilterRole(g) && PickersOf([g]) == PickerRole(g)
  {
    assert [g][1..] == [];
  }

  lemma RolesOfFirst(gs: seq<Plugin>)
    requires gs != []
    ensures ScorersOf(gs) == ScorerRole(gs[0]) + ScorersOf(gs[1..])
    ensures FiltersOf(gs) == FilterRole(gs[0]) + FiltersOf(gs[1..])
    ensures PickersOf(gs) == PickerRole(gs[0]) + PickersOf(gs[1..])
  {
  }

  predicate Unweighted(g: Plugin) { g.Plain? && g.isScorer }

  predicate NoneUnweighted(gs: seq<Plugin>) { forall i :: 0 <= i < |gs| ==> !Unweighted(gs[i]) }

  function Pickers(p: Profile): seq<Picker> { if p.picker.Some? then [p.picker.value] else [] }

  /** Registering xs then ys is registering xs ++ ys; an error in xs stops there. */
  lemma {:induction false} RegisterAppend(p: Profile, xs: seq<Plugin>, ys: seq<Plugin>)
    ensures Register(p, xs + ys)
         == if Register(p, xs).err.Some? then Register(p, xs) else Register(Register(p, xs).profile, ys)
    decreases |xs|
  {
    hide RegisterOne;
    if xs == [] {
      assert xs + ys == ys;
    } else {
      assert (xs + ys)[0] == xs[0] && (xs + ys)[1..] == xs[1..] + ys;
      if RegisterOne(p, xs[0]).err.None? { RegisterAppend(RegisterOne(p, xs[0]).profile, xs[1..], ys); }
    }
  }

  lemma NoneUnweightedCons(gs: seq<Plugin>)
    requires gs != []
    ensures NoneUnweighted(gs) <==> !Unweighted(gs[0]) && NoneUnweighted(gs[1..])
  {
    if !Unweighted(gs[0]) && NoneUnweighted(gs[1..]) {
      forall i | 0 <= i < |gs| ensures !Unweighted(gs[i]) { if i > 0 { assert gs[i] == gs[1..][i - 1]; } }
    }
  }

  lemma OneOutcome(p: Profile, g: Plugin)
    ensures RegisterOne(p, g).err.None? <==> !Unweighted(g) && |Pickers(p) + PickerRole(g)| <= 1
    ensures RegisterOne(p, g).err.None? ==>
              && RegisterOne(p, g).profile.scorers == p.scorers + ScorerRole(g)
              && RegisterOne(p, g).profile.filters == p.filters + FilterRole(g)
              && Pickers(RegisterOne(p, g).profile) == Pickers(p) + PickerRole(g)
  {
  }

  /** A successful registration adds the scorers and filters in input order, and the picker if one came. */
  lemma {:induction false} RegisterHolds(p: Profile, gs: seq<Plugin>)
    requires Register(p, gs).err.None?
    ensures Register(p, gs).profile.scorers == p.scorers + ScorersOf(gs)
    ensures Register(p, gs).profile.filters == p.filters + FiltersOf(gs)
    ensures Pickers(Register(p, gs).profile) == Pickers(p) + PickersOf(gs)
    decreases |gs|
  {
    hide RegisterOne, NoneUnweighted, Pickers, ScorerRole, FilterRole, PickerRole;
    if gs == [] {
      assert p.scorers + [] == p.scorers && p.filters + [] == p.filters && Pickers(p) + [] == Pickers(p);
    } else {
      var g, rest := gs[0], gs[1..];
      OneOutcome(p, g);
      RolesOfFirst(gs);
      RegisterHolds(RegisterOne(p, g).profile, rest);
      ConcatAssociative(p.scorers, ScorerRole(g), ScorersOf(rest));
      ConcatAssociative(p.filters, FilterRole(g), FiltersOf(rest));
      ConcatAssociative(Pickers(p), PickerRole(g), PickersOf(rest));
    }
  }

  /**
    Registration succeeds if and only if no scorer comes without a weight and, counting one that is already
    registered, at most one picker comes.
  */
  lemma {:induction false} RegisterSucceedsIff(p: Profile, gs: seq<Plugin>)
    ensures Register(p, gs).err.None? <==> NoneUnweighted(gs) && |Pickers(p) + PickersOf(gs)| <= 1
    decreases |gs|
  {
    if gs == [] {
    } else {
      hide RegisterOne, NoneUnweighted, Pickers, ScorerRole, FilterRole, PickerRole, Unweighted;
      var g, rest := gs[0], gs[1..];
      NoneUnweightedCons(gs);
      OneOutcome(p, g);
      RolesOfFirst(gs);
      ConcatAssociative(Pickers(p), PickerRole(g), PickersOf(rest));
      if RegisterOne(p, g).err.None? { RegisterSucceedsIff(RegisterOne(p, g).profile, rest); }
    }
  }

  /**
    On an error some plugin k is to blame: everything before it is registered, nothing after it is, and of
    itself just the roles registered before its failure (none if it was an unweighted scorer, its scorer and
    filter roles if it was a second picker).
  */
  lemma {:induction false} RegisterFailure(p: Profile, gs: seq<Plugin>) returns (k: nat)
    requires Register(p, gs).err.Some?
    ensures k < |gs| && Register(p, gs[..k]).err.None?
    ensures var q := Register(p, gs[..k]).profile;
            && (Unweighted(gs[k]) ==>
                  Register(p, gs).profile == q && Register(p, gs).err.value == UnweightedScorer(gs[k].name))
            && (!Unweighted(gs[k]) ==>
                  && q.picker.Some? && gs[k].picker.Some?
                  && Register(p, gs).err.value == SecondPicker(gs[k].picker.value.name, q.picker.value.name)
                  && Register(p, gs).profile
                  == q.(scorers := q.scorers + ScorersOf([gs[k]]), filters := q.filters + FiltersOf([gs[k]])))
    decreases |gs|
  {
    var r := RegisterOne(p, gs[0]);
    if r.err.Some? {
      k := 0;
      assert gs[..0] == [];
      RolesOfOne(gs[0]);
    } else {
      var j := RegisterFailure(r.profile, gs[1..]);
      k := j + 1;
      assert gs[..k][0] == gs[0] && gs[..k][1..] == gs[1..][..j];
    }
  }

  /** Over any number of AddPlugins calls, failing or not, a registered picker is never replaced. */
  lemma {:induction false} PickerNeverReplaced(p: Profile, calls: seq<seq<Plugin>>)
    requires p.picker.Some?
    ensures AfterCalls(p, calls).picker == p.picker
    decreases |calls|
  {
    if calls == [] {
    } else {
      KeepsPicker(p, calls[0]);
      PickerNeverReplaced(Register(p, calls[0]).profile, calls[1..]);
    }
  }

  /** The profile after a series of AddPlugins calls. */
  function AfterCalls(p: Profile, calls: seq<seq<Plugin>>): Profile
    decreases |calls|
  {
    if calls == [] then p else AfterCalls(Register(p, calls[0]).profile, calls[1..])
  }

  lemma {:induction false} KeepsPicker(p: Profile, gs: seq<Plugin>)
    requires p.picker.Some?
    ensures Register(p, gs).profile.picker == p.picker
    decreases |gs|
  {
    if gs != [] && RegisterOne(p, gs[0]).err.None? { KeepsPicker(RegisterOne(p, gs[0]).profile, gs[1..]); }
  }
}
