/** What one scheduling cycle selects: filters, the closed form of the scores, dominance, the choice. */
module SchedulerScoring {
  import opened SchedulerProfile

  // ---------- Filters ----------

  /** a is b with some elements left out. */
  predicate Sublist<T(==)>(a: seq<T>, b: seq<T>)
    decreases |b|
  {
    if a == [] then true
    else if b == [] then false
    else (a[0] == b[0] && Sublist(a[1..], b[1..])) || Sublist(a, b[1..])
  }

  lemma {:induction false} SublistSelf<T>(a: seq<T>)
    ensures Sublist(a, a)
    decreases |a|
  {
    if a == [] {
    } else {
      SublistSelf(a[1..]);
    }
  }

  lemma {:induction false} SublistTail<T>(a: seq<T>, b: seq<T>)
    requires a != [] && Sublist(a, b)
    ensures Sublist(a[1..], b)
    decreases |b|
  {
    if a[0] == b[0] && Sublist(a[1..], b[1..]) {
      // a[1..] is found in the tail of b
    } else {
      SublistTail(a, b[1..]);
    }
  }

  lemma {:induction false} SublistTrans<T>(a: seq<T>, b: seq<T>, c: seq<T>)
    requires Sublist(a, b) && Sublist(b, c)
    ensures Sublist(a, c)
    decreases |c|
  {
    if a == [] {
    } else {
      if b[0] == c[0] && Sublist(b[1..], c[1..]) {
        if a[0] == b[0] && Sublist(a[1..], b[1..]) {
          SublistTrans(a[1..], b[1..], c[1..]);
        } else {
          SublistTrans(a, b[1..], c[1..]);
        }
      } else {
        SublistTrans(a, b, c[1..]);
      }
    }
  }

  /** Filters that only leave pods out, keeping the order. */
  ghost predicate Contractive(fs: seq<Filter>)
  {
    forall i, pods :: 0 <= i < |fs| ==> Sublist(fs[i].run(pods), pods)
  }

  function Compose(fs: seq<Filter>, pods: seq<Pod>): seq<Pod>
    decreases |fs|
  {
    if fs == [] then pods else Compose(fs[1..], fs[0].run(pods))
  }

  lemma {:induction false} ComposeEmpty(fs: seq<Filter>)
    requires Contractive(fs)
    ensures Compose(fs, []) == []
    decreases |fs|
  {
    if fs == [] {
    } else {
      assert Sublist(fs[0].run([]), []);
      TailContractive(fs);
      ComposeEmpty(fs[1..]);
    }
  }

  lemma TailContractive(fs: seq<Filter>)
    requires fs != [] && Contractive(fs)
    ensures Contractive(fs[1..])
  {
    forall i, pods | 0 <= i < |fs[1..]| ensures Sublist(fs[1..][i].run(pods), pods) {
      assert Sublist(fs[i + 1].run(pods), pods);
    }
  }

  /** With filters that only leave pods out, leaving early changes nothing and no pod appears from nowhere. */
  lemma {:induction false} EarlyExitRefinesComposition(fs: seq<Filter>, pods: seq<Pod>)
    requires Contractive(fs)
    ensures RunFilters(fs, pods) == Compose(fs, pods)
    ensures Sublist(RunFilters(fs, pods), pods)
    decreases |fs|
  {
    if fs == [] {
      SublistSelf(pods);
    } else {
      var left := fs[0].run(pods);
      assert Sublist(left, pods);
      TailContractive(fs);
      if left == [] {
        ComposeEmpty(fs[1..]);
      } else {
        EarlyExitRefinesComposition(fs[1..], left);
        SublistTrans(RunFilters(fs, pods), left, pods);
      }
    }
  }

  /** For arbitrary filters: the loop differs from the composition only when a filter revives an empty list. */
  lemma {:induction false} EarlyExitExact(fs: seq<Filter>, pods: seq<Pod>)
    ensures RunFilters(fs, pods) == Compose(fs, pods)
        <==> (FiltersCalled(fs, pods) < |fs| ==> Compose(fs[FiltersCalled(fs, pods)..], []) == [])
    decreases |fs|
  {
    if fs == [] {
    } else {
      var left := fs[0].run(pods);
      if left != [] {
        EarlyExitExact(fs[1..], left);
        var n := FiltersCalled(fs[1..], left);
        assert fs[1..][n..] == fs[n + 1..];
      } else if |fs| == 1 {
        assert fs[1..] == [];
      }
    }
  }

  /**
    The loop stops at the first filter that leaves nothing: all filters before it left something, and the result
    is what the filters called make of the pods.
  */
  lemma {:induction false} StopsAtEmpty(fs: seq<Filter>, pods: seq<Pod>)
    ensures var n := FiltersCalled(fs, pods);
            && RunFilters(fs, pods) == Compose(fs[..n], pods)
            && (forall k :: 0 < k < n ==> Compose(fs[..k], pods) != [])
            && (n < |fs| ==> n > 0 && Compose(fs[..n], pods) == [])
    decreases |fs|
  {
    var n := FiltersCalled(fs, pods);
    if fs == [] {
    } else {
      var left := fs[0].run(pods);
      forall k | 0 < k <= |fs| ensures Compose(fs[..k], pods) == Compose(fs[1..][..k - 1], left) {
        assert fs[..k][1..] == fs[1..][..k - 1];
      }
      if left == [] {
        assert fs[1..][..0] == [];
      } else {
        StopsAtEmpty(fs[1..], left);
        assert fs[1..][..0] == [];
      }
    }
  }

  /** The calls of a cycle, one by one: the filters up to that one, then every scorer, then the picker. */
  lemma {:induction false} CycleCallsExact(p: Profile, pods: seq<Pod>)
    ensures var calls, n, m := CycleCalls(p, pods), FiltersCalled(p.filters, pods), |p.scorers|;
            if RunFilters(p.filters, pods) == [] then
              |calls| == n && forall j :: 0 <= j < n ==> calls[j] == Filtered(p.filters[j].name)
            else
              && |calls| == n + m + (if p.picker.Some? then 1 else 0)
              && (forall j :: 0 <= j < n ==> calls[j] == Filtered(p.filters[j].name))
              && (forall j :: 0 <= j < m ==> calls[n + j] == Scored(p.scorers[j].name))
              && (p.picker.Some? ==> calls[n + m] == Picked(p.picker.value.name))
  {
    FilterCallsAt(p.filters[..FiltersCalled(p.filters, pods)]);
    ScorerCallsAt(p.scorers);
    hide FilterCalls, ScorerCalls, RunFilters, FiltersCalled;
  }

  lemma {:induction false} FilterCallsAt(fs: seq<Filter>)
    ensures |FilterCalls(fs)| == |fs| && forall j :: 0 <= j < |fs| ==> FilterCalls(fs)[j] == Filtered(fs[j].name)
    decreases |fs|
  {
    if fs == [] {
    } else {
      FilterCallsAt(fs[..|fs| - 1]);
    }
  }

  lemma {:induction false} ScorerCallsAt(ss: seq<Scorer>)
    ensures |ScorerCalls(ss)| == |ss| && forall j :: 0 <= j < |ss| ==> ScorerCalls(ss)[j] == Scored(ss[j].name)
    decreases |ss|
  {
    if ss == [] {
    } else {
      ScorerCallsAt(ss[..|ss| - 1]);
    }
  }

  // ---------- Scores ----------

  /** Every scorer scores only pods it was given. */
  ghost predicate ScoresOnlyGiven(ss: seq<Scorer>, pods: seq<Pod>)
  {
    forall i :: 0 <= i < |ss| ==> ss[i].score(pods).Keys <= Given(pods)
  }

  lemma {:induction false} MentionedGiven(ss: seq<Scorer>, pods: seq<Pod>)
    ensures Mentioned(ss, pods) <= Given(pods) <==> ScoresOnlyGiven(ss, pods)
    decreases |ss|
  {
    if ss == [] {
    } else {
      var n := |ss| - 1;
      MentionedGiven(ss[..n], pods);
      assert ScoresOnlyGiven(ss, pods) <==> ScoresOnlyGiven(ss[..n], pods) && ss[n].score(pods).Keys <= Given(pods) by {
        if ScoresOnlyGiven(ss, pods) {
          forall i | 0 <= i < n ensures ss[..n][i].score(pods).Keys <= Given(pods) { assert ss[..n][i] == ss[i]; }
        }
        if ScoresOnlyGiven(ss[..n], pods) && ss[n].score(pods).Keys <= Given(pods) {
          forall i | 0 <= i < |ss| ensures ss[i].score(pods).Keys <= Given(pods) {
            if i < n { assert ss[..n][i] == ss[i]; }
          }
        }
      }
    }
  }

  /** The scored pods are exactly the given ones if and only if no scorer brings in a pod of its own. */
  lemma KeysAreGivenIff(m: map<Pod, real>, ss: seq<Scorer>, pods: seq<Pod>)
    requires ScoresAre(m, ss, pods)
    ensures m.Keys == Given(pods) <==> ScoresOnlyGiven(ss, pods)
  {
    MentionedGiven(ss, pods);
    hide ScoresOnlyGiven, Mentioned;
    assert Mentioned(ss, pods) <= Given(pods) <==> Given(pods) + Mentioned(ss, pods) == Given(pods);
  }

  function TotalWeight(ss: seq<Scorer>): int
  {
    if ss == [] then 0 else TotalWeight(ss[..|ss| - 1]) + ss[|ss| - 1].weight
  }

  predicate NonNegative(ss: seq<Scorer>) { forall i :: 0 <= i < |ss| ==> ss[i].weight >= 0 }

  lemma TermBounds(s: Scorer, pods: seq<Pod>, p: Pod)
    requires s.weight >= 0
    ensures 0.0 <= Term(s, pods, p) <= s.weight as real
  {
    var w := s.weight as real;
    if p in s.score(pods) {
      var x := EnforceScoreRange(s.score(pods)[p]);
      assert 0.0 <= x <= 1.0;
      ScaleBounds(x, w);
    }
  }

  lemma ScaleBounds(x: real, w: real)
    requires 0.0 <= x <= 1.0 && w >= 0.0
    ensures 0.0 <= x * w <= w
  {
    assert (1.0 - x) * w >= 0.0;
  }

  /** With non-negative weights a pod's score lies between 0 and the sum of the weights. */
  lemma {:induction false} ScoreBounds(ss: seq<Scorer>, pods: seq<Pod>, p: Pod)
    requires NonNegative(ss)
    ensures 0.0 <= WeightedSum(ss, pods, p) <= TotalWeight(ss) as real
    decreases |ss|
  {
    if ss == [] {
    } else {
      var n := |ss| - 1;
      ScoreBounds(ss[..n], pods, p);
      TermBounds(ss[n], pods, p);
    }
  }

  lemma {:induction false} RemoveTerm(ss: seq<Scorer>, i: nat, pods: seq<Pod>, p: Pod)
    requires i < |ss|
    ensures WeightedSum(ss, pods, p) == WeightedSum(ss[..i] + ss[i + 1..], pods, p) + Term(ss[i], pods, p)
    ensures TotalWeight(ss) == TotalWeight(ss[..i] + ss[i + 1..]) + ss[i].weight
    decreases |ss|
  {
    hide Term;
    var n := |ss| - 1;
    if i == n {
      assert ss[..i] + ss[i + 1..] == ss[..n];
    } else {
      var rest := ss[..i] + ss[i + 1..];
      RemoveTerm(ss[..n], i, pods, p);
      assert rest[..|rest| - 1] == ss[..n][..i] + ss[..n][i + 1..];
      assert rest[|rest| - 1] == ss[n];
    }
  }

  /** The last of ss is somewhere in ts, and the two rests agree. */
  lemma Matching(ss: seq<Scorer>, ts: seq<Scorer>) returns (i: nat)
    requires multiset(ss) == multiset(ts) && ss != []
    ensures i < |ts| && ts[i] == ss[|ss| - 1]
    ensures multiset(ss[..|ss| - 1]) == multiset(ts[..i] + ts[i + 1..])
  {
    var last := ss[|ss| - 1];
    assert ss == ss[..|ss| - 1] + [last];
    assert last in multiset(ts);
    i :| 0 <= i < |ts| && ts[i] == last;
    assert ts == ts[..i] + [last] + ts[i + 1..];
    assert multiset(ts[..i] + ts[i + 1..]) == multiset(ts) - multiset{last};
    assert multiset(ss[..|ss| - 1]) == multiset(ss) - multiset{last};
  }

  /** Over reals the order in which scorers were registered does not matter. */
  lemma {:induction false} ScorerOrderIrrelevant(ss: seq<Scorer>, ts: seq<Scorer>, pods: seq<Pod>, p: Pod)
    requires multiset(ss) == multiset(ts)
    ensures WeightedSum(ss, pods, p) == WeightedSum(ts, pods, p)
    decreases |ss|
  {
    hide Term;
    assert |ss| == |multiset(ss)| == |multiset(ts)| == |ts|;
    if ss == [] {
    } else {
      var i := Matching(ss, ts);
      ScorerOrderIrrelevant(ss[..|ss| - 1], ts[..i] + ts[i + 1..], pods, p);
      RemoveTerm(ts, i, pods, p);
    }
  }

  // ---------- What one scorer contributes ----------

  /** The score a scorer gives a pod; none counts as zero. */
  function ScoreOf(s: Scorer, pods: seq<Pod>, p: Pod): real
  {
    if p in s.score(pods) then s.score(pods)[p] else 0.0
  }

  /**
    One more scorer adds exactly its score times its weight if the score is in range, the whole weight above the
    range and nothing below it.
  */
  lemma ScorerAdds(ss: seq<Scorer>, s: Scorer, pods: seq<Pod>, p: Pod)
    ensures var x, gained := ScoreOf(s, pods, p), WeightedSum(ss + [s], pods, p) - WeightedSum(ss, pods, p);
            && (0.0 <= x <= 1.0 ==> gained == x * s.weight as real)
            && (x > 1.0 ==> gained == s.weight as real)
            && (x < 0.0 ==> gained == 0.0)
  {
    assert (ss + [s])[..|ss|] == ss && (ss + [s])[|ss|] == s;
  }

  predicate InRange(x: real) { 0.0 <= x <= 1.0 }

  lemma TermMonotone(s: Scorer, pods: seq<Pod>, p: Pod, q: Pod)
    requires s.weight >= 0 && ScoreOf(s, pods, p) >= ScoreOf(s, pods, q)
    ensures Term(s, pods, p) >= Term(s, pods, q)
    ensures (s.weight > 0 && ScoreOf(s, pods, p) > ScoreOf(s, pods, q)
             && InRange(ScoreOf(s, pods, p)) && InRange(ScoreOf(s, pods, q))) ==>
              Term(s, pods, p) > Term(s, pods, q)
  {
    hide Term, ScoreOf, Worth, InRange;
    TermWorth(s, pods, p);
    TermWorth(s, pods, q);
    WorthMonotone(ScoreOf(s, pods, p), ScoreOf(s, pods, q), s.weight);
  }

  function Times(a: real, w: real): real { a * w }

  function Worth(x: real, weight: int): real { Times(EnforceScoreRange(x), weight as real) }

  lemma TermWorth(s: Scorer, pods: seq<Pod>, p: Pod)
    ensures Term(s, pods, p) == Worth(ScoreOf(s, pods, p), s.weight)
  {
  }

  lemma WorthMonotone(x: real, y: real, weight: int)
    requires x >= y && weight >= 0
    ensures Worth(x, weight) >= Worth(y, weight)
    ensures x > y && weight > 0 && InRange(x) && InRange(y) ==> Worth(x, weight) > Worth(y, weight)
  {
    hide Times;
    TimesMonotone(EnforceScoreRange(x), EnforceScoreRange(y), weight as real);
  }

  lemma TimesMonotone(x: real, y: real, w: real)
    requires x >= y && w >= 0.0
    ensures Times(x, w) >= Times(y, w)
    ensures x > y && w > 0.0 ==> Times(x, w) > Times(y, w)
  {
    hide Times;
    TimesPositive(x - y, w);
    TimesSum(x - y, y, w);
    assert x - y + y == x;
  }

  lemma TimesPositive(a: real, w: real)
    requires a >= 0.0 && w >= 0.0
    ensures Times(a, w) >= 0.0 && (a > 0.0 && w > 0.0 ==> Times(a, w) > 0.0)
  {
  }

  lemma TimesSum(a: real, b: real, w: real)
    ensures Times(a + b, w) == Times(a, w) + Times(b, w)
  {
  }

  /** No scorer gives q more than p. */
  ghost predicate NoneBetter(ss: seq<Scorer>, pods: seq<Pod>, p: Pod, q: Pod)
  {
    forall i :: 0 <= i < |ss| ==> ScoreOf(ss[i], pods, p) >= ScoreOf(ss[i], pods, q)
  }

  /** Some scorer that counts gives p more than q, both within the range. */
  ghost predicate SomeBetter(ss: seq<Scorer>, pods: seq<Pod>, p: Pod, q: Pod)
  {
    exists i :: 0 <= i < |ss| && ss[i].weight > 0 && ScoreOf(ss[i], pods, p) > ScoreOf(ss[i], pods, q)
                && InRange(ScoreOf(ss[i], pods, p)) && InRange(ScoreOf(ss[i], pods, q))
  }

  /** A pod that no scorer puts below another is not ranked below it, and above it if some scorer prefers it. */
  lemma {:induction false} BetterRanksHigher(ss: seq<Scorer>, pods: seq<Pod>, p: Pod, q: Pod)
    requires NonNegative(ss) && NoneBetter(ss, pods, p, q)
    ensures WeightedSum(ss, pods, p) >= WeightedSum(ss, pods, q)
    ensures SomeBetter(ss, pods, p, q) ==> WeightedSum(ss, pods, p) > WeightedSum(ss, pods, q)
    decreases |ss|
  {
    hide Term, ScoreOf;
    if ss == [] {
    } else {
      var n := |ss| - 1;
      assert forall i :: 0 <= i < n ==> ss[..n][i] == ss[i];
      BetterRanksHigher(ss[..n], pods, p, q);
      TermMonotone(ss[n], pods, p, q);
      if SomeBetter(ss, pods, p, q) {
        var i :| 0 <= i < |ss| && ss[i].weight > 0 && ScoreOf(ss[i], pods, p) > ScoreOf(ss[i], pods, q)
                 && InRange(ScoreOf(ss[i], pods, p)) && InRange(ScoreOf(ss[i], pods, q));
        if i < n { assert SomeBetter(ss[..n], pods, p, q) by { assert ss[..n][i] == ss[i]; } }
      }
    }
  }

  // ---------- Dominance of one scorer ----------

  /** A full hit: the scorer gives at least 1. */
  predicate Hit(s: Scorer, pods: seq<Pod>, p: Pod) { p in s.score(pods) && s.score(pods)[p] >= 1.0 }

  /** A full miss: the scorer gives at most 0, or nothing. */
  predicate Miss(s: Scorer, pods: seq<Pod>, p: Pod) { p in s.score(pods) ==> s.score(pods)[p] <= 0.0 }

  lemma HitTerm(s: Scorer, pods: seq<Pod>, p: Pod)
    ensures Hit(s, pods, p) ==> Term(s, pods, p) == s.weight as real
    ensures Miss(s, pods, p) ==> Term(s, pods, p) == 0.0
  {
  }

  lemma RestNonNegative(ss: seq<Scorer>, i: nat)
    requires i < |ss| && NonNegative(ss)
    ensures NonNegative(ss[..i] + ss[i + 1..])
  {
    var rest := ss[..i] + ss[i + 1..];
    forall j | 0 <= j < |rest| ensures rest[j].weight >= 0 {
      assert rest[j] == if j < i then ss[j] else ss[j + 1];
    }
  }

  /** If one weight is at least the sum of the others, a full hit on it is never ranked below a full miss. */
  lemma HitDominatesMiss(ss: seq<Scorer>, i: nat, pods: seq<Pod>, a: Pod, b: Pod)
    requires i < |ss| && NonNegative(ss) && 2 * ss[i].weight >= TotalWeight(ss)
    requires Hit(ss[i], pods, a) && Miss(ss[i], pods, b)
    ensures WeightedSum(ss, pods, a) >= WeightedSum(ss, pods, b)
  {
    hide Term, Hit, Miss;
    var rest := ss[..i] + ss[i + 1..];
    RemoveTerm(ss, i, pods, a);
    RemoveTerm(ss, i, pods, b);
    HitTerm(ss[i], pods, a);
    HitTerm(ss[i], pods, b);
    RestNonNegative(ss, i);
    ScoreBounds(rest, pods, a);
    ScoreBounds(rest, pods, b);
  }

  function Weights(ss: seq<Scorer>): seq<int> { seq(|ss|, i requires 0 <= i < |ss| => ss[i].weight) }

  /**
    Whatever scorers with these weights give the pods they are asked about, a full hit on scorer i is never
    ranked below a full miss.
  */
  ghost predicate Dominates(ws: seq<int>, i: nat)
    requires i < |ws|
  {
    forall ss: seq<Scorer>, pods, a, b ::
      Weights(ss) == ws && ScoresOnlyGiven(ss, pods) && a in pods && b in pods
      && Hit(ss[i], pods, a) && Miss(ss[i], pods, b) ==>
        WeightedSum(ss, pods, a) >= WeightedSum(ss, pods, b)
  }

  function Sum(ws: seq<int>): int { if ws == [] then 0 else Sum(ws[..|ws| - 1]) + ws[|ws| - 1] }

  lemma {:induction false} SumIsTotal(ss: seq<Scorer>)
    ensures TotalWeight(ss) == Sum(Weights(ss))
    decreases |ss|
  {
    if ss == [] {
    } else {
      var n := |ss| - 1;
      SumIsTotal(ss[..n]);
      assert Weights(ss)[..n] == Weights(ss[..n]);
    }
  }

  const TWO: seq<Pod> := ["a", "b"]

  /** The adversary: scorer i favours pod "a", every other one favours pod "b". */
  function Adversary(ws: seq<int>, i: nat): (ss: seq<Scorer>)
    ensures |ss| == |ws|
  {
    seq(|ws|, j requires 0 <= j < |ws| =>
      Scorer("s", (pods: seq<Pod>) => if j == i then map["a" := 1.0, "b" := 0.0] else map["a" := 0.0, "b" := 1.0],
             ws[j]))
  }

  lemma {:induction false} AdversarySums(ws: seq<int>, i: nat, n: nat)
    requires n <= |ws|
    ensures WeightedSum(Adversary(ws, i)[..n], TWO, "a") == if i < n then ws[i] as real else 0.0
    ensures WeightedSum(Adversary(ws, i)[..n], TWO, "b") == (Sum(ws[..n]) - (if i < n then ws[i] else 0)) as real
    decreases n
  {
    hide Term, Adversary;
    if n == 0 {
    } else {
      AdversarySums(ws, i, n - 1);
      var ss := Adversary(ws, i)[..n];
      assert ss[..n - 1] == Adversary(ws, i)[..n - 1] && ss[n - 1] == Adversary(ws, i)[n - 1];
      assert ws[..n][..n - 1] == ws[..n - 1];
      AdversaryTerm(ws, i, n - 1);
    }
  }

  lemma AdversaryTerm(ws: seq<int>, i: nat, j: nat)
    requires j < |ws|
    ensures Term(Adversary(ws, i)[j], TWO, "a") == if j == i then ws[j] as real else 0.0
    ensures Term(Adversary(ws, i)[j], TWO, "b") == if j == i then 0.0 else ws[j] as real
  {
    assert Adversary(ws, i)[j].weight == ws[j];
  }

  lemma AdversaryGiven(ws: seq<int>, i: nat)
    ensures ScoresOnlyGiven(Adversary(ws, i), TWO)
  {
    assert TWO[0] in Given(TWO) && TWO[1] in Given(TWO);
  }

  /** The adversary's pod "a" hits, "b" misses, and "b" is ranked higher by the weights of the others. */
  lemma AdversaryWins(ws: seq<int>, i: nat)
    requires i < |ws|
    ensures var ss := Adversary(ws, i);
            && Weights(ss) == ws && Hit(ss[i], TWO, "a") && Miss(ss[i], TWO, "b")
            && WeightedSum(ss, TWO, "a") == ws[i] as real && WeightedSum(ss, TWO, "b") == (Sum(ws) - ws[i]) as real
  {
    hide WeightedSum, Sum;
    var ss := Adversary(ws, i);
    AdversarySums(ws, i, |ws|);
    assert ss[..|ws|] == ss && ws[..|ws|] == ws;
  }

  /** For non-negative weights: weight i dominates if and only if it is at least the sum of the others. */
  lemma DominatesIff(ws: seq<int>, i: nat)
    requires i < |ws| && forall j :: 0 <= j < |ws| ==> ws[j] >= 0
    ensures Dominates(ws, i) <==> 2 * ws[i] >= Sum(ws)
  {
    hide WeightedSum, Sum, Adversary, Hit, Miss, ScoresOnlyGiven;
    if 2 * ws[i] >= Sum(ws) {
      forall ss: seq<Scorer>, pods, a, b |
        Weights(ss) == ws && ScoresOnlyGiven(ss, pods) && a in pods && b in pods
        && Hit(ss[i], pods, a) && Miss(ss[i], pods, b)
        ensures WeightedSum(ss, pods, a) >= WeightedSum(ss, pods, b)
      {
        SumIsTotal(ss);
        assert forall j :: 0 <= j < |ss| ==> ss[j].weight == Weights(ss)[j];
        HitDominatesMiss(ss, i, pods, a, b);
      }
    } else {
      AdversaryWins(ws, i);
      AdversaryGiven(ws, i);
      assert TWO[0] == "a" && TWO[1] == "b";
    }
  }

  /** The default profile weighs load 1, prefix cache 2, KV cache 1: the prefix-cache scorer dominates. */
  lemma DefaultProfilePrefixDominates()
    ensures Dominates([1, 2, 1], 1)
    ensures !Dominates([1, 2, 1], 0) && !Dominates([1, 2, 1], 2)
  {
    var ws := [1, 2, 1];
    assert [1][..0] == [] && [1, 2][..1] == [1] && ws[..2] == [1, 2];
    assert Sum([1]) == 1;
    assert Sum([1, 2]) == 3;
    assert Sum(ws) == 4;
    hide Dominates;
    DominatesIff(ws, 0);
    DominatesIff(ws, 1);
    DominatesIff(ws, 2);
  }

  // ---------- End to end ----------

  /** A max-score picker: for a non-empty list it returns one pod with the highest score. */
  ghost predicate PicksMax(p: Picker)
  {
    forall sp: seq<ScoredPod> {:trigger p.pick(sp)} :: sp != [] ==>
      && p.pick(sp).Some? && |p.pick(sp).value| == 1
      && exists i :: 0 <= i < |sp| && sp[i].pod == p.pick(sp).value[0]
                     && forall j :: 0 <= j < |sp| ==> sp[j].score <= sp[i].score
  }

  /**
    With scorers that score only given pods and a max-score picker, the chosen pod is one the filters kept
    and no kept pod has a higher weighted sum.
  */
  lemma ChosenPodIsBest(fs: seq<Filter>, ss: seq<Scorer>, p: Picker, pods: seq<Pod>,
                        m: map<Pod, real>, order: seq<ScoredPod>)
    requires PicksMax(p) && RunFilters(fs, pods) != [] && ScoresOnlyGiven(ss, RunFilters(fs, pods))
    requires ScoresAre(m, ss, RunFilters(fs, pods)) && Enumerates(order, m)
    ensures p.pick(order).Some? && |p.pick(order).value| == 1
    ensures p.pick(order).value[0] in RunFilters(fs, pods)
    ensures forall q :: q in RunFilters(fs, pods) ==>
              WeightedSum(ss, RunFilters(fs, pods), q) <= WeightedSum(ss, RunFilters(fs, pods), p.pick(order).value[0])
  {
    hide RunFilters, WeightedSum;
    var kept := RunFilters(fs, pods);
    KeysAreGivenIff(m, ss, kept);
    hide ScoresOnlyGiven;
    assert kept[0] in m;
    assert order != [];
    var c := p.pick(order).value[0];
    var i :| 0 <= i < |order| && order[i].pod == c && forall j :: 0 <= j < |order| ==> order[j].score <= order[i].score;
    assert c in m;
    forall q | q in kept ensures WeightedSum(ss, kept, q) <= WeightedSum(ss, kept, c) {
      assert q in m;
      var j :| 0 <= j < |order| && order[j].pod == q;
    }
  }

  /** A pod is not chosen while another survivor is at least as good on every scorer and better on one. */
  lemma WorsePodNotChosen(fs: seq<Filter>, ss: seq<Scorer>, p: Picker, pods: seq<Pod>,
                          m: map<Pod, real>, order: seq<ScoredPod>, better: Pod, worse: Pod)
    requires PicksMax(p) && RunFilters(fs, pods) != [] && ScoresOnlyGiven(ss, RunFilters(fs, pods))
    requires ScoresAre(m, ss, RunFilters(fs, pods)) && Enumerates(order, m)
    requires better in RunFilters(fs, pods) && NonNegative(ss)
    requires NoneBetter(ss, RunFilters(fs, pods), better, worse) && SomeBetter(ss, RunFilters(fs, pods), better, worse)
    ensures p.pick(order).Some? && |p.pick(order).value| == 1 && p.pick(order).value[0] != worse
  {
    hide RunFilters, WeightedSum, ScoresAre, Enumerates, PicksMax, ScoresOnlyGiven, NoneBetter, SomeBetter, NonNegative;
    ChosenPodIsBest(fs, ss, p, pods, m, order);
    BetterRanksHigher(ss, RunFilters(fs, pods), better, worse);
  }

  /**
    A full prefix hit is never beaten by a full miss: if some kept pod is a full hit on the dominating
    scorer and the chosen one is a full miss, the two have the same weighted sum.
  */
  lemma MissChosenOnlyOnTie(fs: seq<Filter>, ss: seq<Scorer>, p: Picker, pods: seq<Pod>,
                            m: map<Pod, real>, order: seq<ScoredPod>, i: nat, hit: Pod)
    requires PicksMax(p) && RunFilters(fs, pods) != [] && ScoresOnlyGiven(ss, RunFilters(fs, pods))
    requires ScoresAre(m, ss, RunFilters(fs, pods)) && Enumerates(order, m)
    requires i < |ss| && NonNegative(ss) && 2 * ss[i].weight >= TotalWeight(ss)
    requires hit in RunFilters(fs, pods) && Hit(ss[i], RunFilters(fs, pods), hit)
    requires p.pick(order).Some? && |p.pick(order).value| == 1
    requires Miss(ss[i], RunFilters(fs, pods), p.pick(order).value[0])
    ensures WeightedSum(ss, RunFilters(fs, pods), p.pick(order).value[0])
         == WeightedSum(ss, RunFilters(fs, pods), hit)
  {
    hide RunFilters, WeightedSum, Hit, Miss, ScoresAre, Enumerates, PicksMax, ScoresOnlyGiven, TotalWeight;
    ChosenPodIsBest(fs, ss, p, pods, m, order);
    HitDominatesMiss(ss, i, RunFilters(fs, pods), hit, p.pick(order).value[0]);
  }
}
