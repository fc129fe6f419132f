/**
  The second success on a server that completes what it is sent, as one that adds defaults to the fields of a
  container the controller leaves open. The closures then replace the completed contents by their own again.
*/
module ServerDefaults {
  import opened Basics
  import opened Cluster
  import opened SchedulerInstall
  import opened SchedulerInstallConvergence

  type Fill = Content -> Content

  /** Completing once is completing for good. */
  ghost predicate Completes(fill: Fill) { forall x :: fill(fill(x)) == fill(x) }

  /** All a server of this kind ever holds. */
  ghost predicate Complete(fill: Fill, c: Objects) { forall k :: k in c ==> fill(c[k].content) == c[k].content }

  function Filled(fill: Fill, o: Obj): Obj { o.(content := fill(o.content)) }

  /** A CreateOrUpdate call: nothing is sent if the closure leaves the live object as it is. */
  function ApplyBy(alloc: Key -> string, fill: Fill, w: Write, c: Objects): Objects
  {
    if Settled(w, c) then c
    else
      c[w.key := Filled(fill, if w.key in c then Mutate(w, c[w.key]) else Stored(alloc, w.key, Mutate(w, Fresh(w))))]
  }

  function AfterBy(alloc: Key -> string, fill: Fill, ws: seq<Write>, c: Objects): Objects
  {
    if ws == [] then c else ApplyBy(alloc, fill, ws[|ws| - 1], AfterBy(alloc, fill, ws[..|ws| - 1], c))
  }

  /** The Create and Update calls sent, also where the server completes the object to what it was. */
  function EditsBy(alloc: Key -> string, fill: Fill, ws: seq<Write>, c: Objects): nat
  {
    if ws == [] then 0
    else
      EditsBy(alloc, fill, ws[..|ws| - 1], c)
      + if Settled(ws[|ws| - 1], AfterBy(alloc, fill, ws[..|ws| - 1], c)) then 0 else 1
  }

  function FinishBy(alloc: Key -> string, fill: Fill, p: Plan, c: Objects): Objects
  {
    var d := AfterBy(alloc, fill, p.writes, c);
    if p.end.Drop? then d - {p.end.key} else d
  }

  /** A server that stores what it is sent is the special case the reconciler's methods are proved against. */
  lemma {:induction false} StoredAsSent(alloc: Key -> string, ws: seq<Write>, c: Objects)
    ensures AfterBy(alloc, x => x, ws, c) == After(alloc, ws, c)
    ensures EditsBy(alloc, x => x, ws, c) == Edits(alloc, ws, c)
    decreases |ws|
  {
    hide Mutate, Stored, Settled;
    if ws == [] {
    } else {
      var n := |ws| - 1;
      StoredAsSent(alloc, ws[..n], c);
      SettledIff(alloc, ws[n], After(alloc, ws[..n], c));
      OneAsSent(alloc, ws[n], After(alloc, ws[..n], c));
    }
  }

  lemma OneAsSent(alloc: Key -> string, w: Write, c: Objects)
    ensures ApplyBy(alloc, x => x, w, c) == Apply(alloc, w, c)
  {
    hide Mutate, Stored;
    SettledIff(alloc, w, c);
  }

  // ---------- One key ----------

  /** The object is what the server makes of the closure's result. */
  ghost predicate Made(fill: Fill, w: Write, d: Objects)
  {
    w.key in d && exists o :: d[w.key] == Filled(fill, Mutate(w, o))
  }

  /** The server keeps the content of the write as it is. */
  predicate Kept(fill: Fill, w: Write)
  {
    w.change.content.Some? ==> fill(w.change.content.value) == w.change.content.value
  }

  lemma MadeNow(alloc: Key -> string, fill: Fill, w: Write, c: Objects)
    requires Complete(fill, c)
    ensures Made(fill, w, ApplyBy(alloc, fill, w, c))
  {
    hide Mutate;
    if Settled(w, c) {
      assert c[w.key] == Filled(fill, Mutate(w, c[w.key]));
    } else if w.key in c {
      assert ApplyBy(alloc, fill, w, c)[w.key] == Filled(fill, Mutate(w, c[w.key]));
    } else {
      MutateStored(alloc, w, w.key, Fresh(w));
      assert ApplyBy(alloc, fill, w, c)[w.key] == Filled(fill, Mutate(w, Stored(alloc, w.key, Fresh(w))));
    }
  }

  /** Then the closure has nothing to do exactly if its content is kept; and calling again ends the same. */
  lemma MadeSettledIff(alloc: Key -> string, fill: Fill, w: Write, d: Objects)
    requires Made(fill, w, d) && Completes(fill)
    ensures Settled(w, d) <==> Kept(fill, w)
    ensures ApplyBy(alloc, fill, w, d) == d
  {
    var o :| d[w.key] == Filled(fill, Mutate(w, o));
    MutateAbsorbs(w, w, o);
    var x := d[w.key];
    assert Mutate(w, x) == if w.change.content.Some? then x.(content := w.change.content.value) else x;
    assert Filled(fill, Mutate(w, x)) == x;
    assert d[w.key := x] == d;
  }

  lemma CompleteKept(alloc: Key -> string, fill: Fill, w: Write, c: Objects)
    requires Completes(fill) && Complete(fill, c)
    ensures Complete(fill, ApplyBy(alloc, fill, w, c))
  {
    hide Mutate, Stored;
  }

  // ---------- Series ----------

  /** The later writes name other objects. */
  ghost predicate LastOfKey(ws: seq<Write>, n: nat)
  {
    n < |ws| && forall j :: n < j < |ws| ==> ws[j].key != ws[n].key
  }

  lemma {:induction false} SeriesComplete(alloc: Key -> string, fill: Fill, ws: seq<Write>, c: Objects)
    requires Completes(fill) && Complete(fill, c)
    ensures Complete(fill, AfterBy(alloc, fill, ws, c))
    decreases |ws|
  {
    hide ApplyBy, Complete;
    if ws == [] {
    } else {
      SeriesComplete(alloc, fill, ws[..|ws| - 1], c);
      CompleteKept(alloc, fill, ws[|ws| - 1], AfterBy(alloc, fill, ws[..|ws| - 1], c));
    }
  }

  lemma {:induction false} SeriesMakes(alloc: Key -> string, fill: Fill, ws: seq<Write>, c: Objects, n: nat)
    requires Completes(fill) && Complete(fill, c) && LastOfKey(ws, n)
    ensures Made(fill, ws[n], AfterBy(alloc, fill, ws, c))
    decreases |ws|
  {
    hide Complete, Completes, Mutate, Stored, Filled, Settled;
    var m := |ws| - 1;
    var d := AfterBy(alloc, fill, ws[..m], c);
    SeriesComplete(alloc, fill, ws[..m], c);
    if n == m {
      MadeNow(alloc, fill, ws[m], d);
    } else {
      assert ws[..m][n] == ws[n];
      SeriesMakes(alloc, fill, ws[..m], c, n);
      assert ApplyBy(alloc, fill, ws[m], d)[ws[n].key] == d[ws[n].key];
    }
  }

  /** A series sends nothing exactly if every closure leaves the live object as it is. */
  lemma {:induction false} SilentByIff(alloc: Key -> string, fill: Fill, ws: seq<Write>, d: Objects)
    ensures EditsBy(alloc, fill, ws, d) == 0 <==> forall j :: 0 <= j < |ws| ==> Settled(ws[j], d)
    ensures EditsBy(alloc, fill, ws, d) == 0 ==> AfterBy(alloc, fill, ws, d) == d
    decreases |ws|
  {
    hide Settled;
    if ws == [] {
    } else {
      var n := |ws| - 1;
      SilentByIff(alloc, fill, ws[..n], d);
      assert forall j :: 0 <= j < n ==> ws[..n][j] == ws[j];
    }
  }

  lemma {:induction false} SeriesStays(alloc: Key -> string, fill: Fill, ws: seq<Write>, d: Objects)
    requires forall j :: 0 <= j < |ws| ==> ApplyBy(alloc, fill, ws[j], d) == d
    ensures AfterBy(alloc, fill, ws, d) == d
    decreases |ws|
  {
    hide ApplyBy;
    if ws == [] {
    } else {
      assert forall j :: 0 <= j < |ws| - 1 ==> ws[..|ws| - 1][j] == ws[j];
      SeriesStays(alloc, fill, ws[..|ws| - 1], d);
    }
  }

  // ---------- What the next plan reads ----------

  /** The clusters differ in contents only. */
  ghost predicate Alike(c: Objects, d: Objects)
  {
    c.Keys == d.Keys && forall k :: k in c ==> c[k].(content := Nothing) == d[k].(content := Nothing)
  }

  lemma AlikeKept(alloc: Key -> string, fill: Fill, w: Write, c: Objects, d: Objects)
    requires Alike(c, d)
    ensures Alike(Apply(alloc, w, c), ApplyBy(alloc, fill, w, d))
  {
    var a, b := Apply(alloc, w, c), ApplyBy(alloc, fill, w, d);
    forall k | k in a ensures k in b && a[k].(content := Nothing) == b[k].(content := Nothing) {
      if k != w.key {
        assert a[k] == c[k];
      } else if k in c {
        assert c[k].(content := Nothing) == d[k].(content := Nothing);
        assert d[k] == c[k].(content := d[k].content);
      }
    }
  }

  lemma {:induction false} SeriesAlike(alloc: Key -> string, fill: Fill, ws: seq<Write>, c: Objects)
    ensures Alike(After(alloc, ws, c), AfterBy(alloc, fill, ws, c))
    decreases |ws|
  {
    hide Apply, ApplyBy;
    if ws == [] {
    } else {
      var n := |ws| - 1;
      SeriesAlike(alloc, fill, ws[..n], c);
      hide Alike;
      AlikeKept(alloc, fill, ws[n], After(alloc, ws[..n], c), AfterBy(alloc, fill, ws[..n], c));
    }
  }

  lemma NextPlan(alloc: Key -> string, fill: Fill, has: Kind -> bool, i: Install, c: Objects)
    requires !PlanAt(alloc, has, i, c).end.Broken?
    ensures PlanAt(alloc, has, i, FinishBy(alloc, fill, PlanAt(alloc, has, i, c), c)) == PlanAt(alloc, has, i, c)
  {
    var p := PlanAt(alloc, has, i, c);
    var d, e := Finish(alloc, p, c), FinishBy(alloc, fill, p, c);
    hide PlanAt, After, AfterBy, Edits;
    PlanKept(alloc, has, i, Attempt(c, d, true, Edits(alloc, p.writes, c)));
    SeriesAlike(alloc, fill, p.writes, c);
    assert Alike(d, e);
    SameSight(alloc, has, i, d, e);
  }

  lemma SameSight(alloc: Key -> string, has: Kind -> bool, i: Install, d: Objects, e: Objects)
    requires Alike(d, e)
    ensures PlanAt(alloc, has, i, d) == PlanAt(alloc, has, i, e)
  {
    hide PlanOf;
    assert forall k :: k in d ==> d[k].owner == e[k].owner && d[k].clusterIP == e[k].clusterIP by {
      forall k | k in d ensures d[k].owner == e[k].owner && d[k].clusterIP == e[k].clusterIP {
        assert d[k].(content := Nothing) == e[k].(content := Nothing);
      }
    }
  }

  // ---------- The second success ----------

  /**
    A second success in a row starts from the same plan. It makes no call exactly if the Services do not clash
    and the server keeps every content of the plan as it is sent; and whatever the server adds, without a clash
    the calls change nothing any more.
  */
  lemma SecondRunSilentByIff(alloc: Key -> string, fill: Fill, has: Kind -> bool, i: Install, c: Objects)
    requires Completes(fill) && Complete(fill, c) && !PlanAt(alloc, has, i, c).end.Broken?
    ensures var p := PlanAt(alloc, has, i, c);
            var d := FinishBy(alloc, fill, p, c);
            && PlanAt(alloc, has, i, d) == p
            && (EditsBy(alloc, fill, p.writes, d) == 0 <==>
                !Clash(i) && forall j :: 0 <= j < |p.writes| ==> Kept(fill, p.writes[j]))
            && (!Clash(i) ==> FinishBy(alloc, fill, p, d) == d)
  {
    hide PlanAt, AfterBy, EditsBy, Complete, Completes, Kept, Clash, Settled, ApplyBy;
    var p := PlanAt(alloc, has, i, c);
    var d := FinishBy(alloc, fill, p, c);
    NextPlan(alloc, fill, has, i, c);
    SilentByIff(alloc, fill, p.writes, d);
    if Clash(i) {
      PlanHasServices(alloc, has, i, c);
      ClashSends(i, d, p.writes);
    } else {
      forall j | 0 <= j < |p.writes|
        ensures Settled(p.writes[j], d) <==> Kept(fill, p.writes[j])
        ensures ApplyBy(alloc, fill, p.writes[j], d) == d
      {
        PlanMakes(alloc, fill, has, i, c, j);
        MadeSettledIff(alloc, fill, p.writes[j], d);
      }
      SeriesStays(alloc, fill, p.writes, d);
    }
  }

  lemma PlanMakes(alloc: Key -> string, fill: Fill, has: Kind -> bool, i: Install, c: Objects, j: nat)
    requires Completes(fill) && Complete(fill, c) && !Clash(i) && j < |PlanAt(alloc, has, i, c).writes|
    ensures var p := PlanAt(alloc, has, i, c); Made(fill, p.writes[j], FinishBy(alloc, fill, p, c))
  {
    hide PlanAt, AfterBy, Complete, Completes, Clash, Ranked, Filled, Mutate;
    var p := PlanAt(alloc, has, i, c);
    PlanCoherent(alloc, has, i, c);
    forall k | j < k < |p.writes| ensures p.writes[k].key != p.writes[j].key {
      if p.writes[k].key == p.writes[j].key { SameKeyClash(i, p.writes, j, k); }
    }
    SeriesMakes(alloc, fill, p.writes, c, j);
    if p.end.Drop? { NotDropped(i, p.writes, j); }
  }

  /** Two different contents are wanted for one object: not both closures leave it as it is. */
  lemma ClashSends(i: Install, d: Objects, ws: seq<Write>)
    requires Clash(i)
    requires ProxyWrite(i) in ws && (HasEpp(i) ==> EppServiceWrite(i, i.spec.epp.value) in ws)
    ensures exists j :: 0 <= j < |ws| && !Settled(ws[j], d)
  {
    var e, p := i.spec.epp.value, i.spec.proxy;
    assert Port("grpc", e.port, 9002).name != Port("http", p.port, p.targetPort).name;
    assert [Port("grpc", e.port, 9002)][0] != [Port("http", p.port, p.targetPort)][0];
    var j :| 0 <= j < |ws| && ws[j] == EppServiceWrite(i, e);
    var k :| 0 <= k < |ws| && ws[k] == ProxyWrite(i);
    assert !Settled(ws[j], d) || !Settled(ws[k], d);
  }
}
