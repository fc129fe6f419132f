/**
  The API server as the operator sees it: a map from (kind, namespace, name) to objects, with calls
  that may fail. A failing call may or may not have taken effect.
*/
module Cluster {
  import opened Basics

  type Labels = map<string, string>

  datatype Kind =
    | ServiceAccount | Role | RoleBinding | ConfigMap | Deployment | Service
    | Gateway | HTTPRoute | ReferenceGrant | DestinationRule | EnvoyFilter

  datatype Key = Key(kind: Kind, ns: string, name: string)

  datatype Port = Port(name: string, port: int, target: int)

  datatype Backend =
    | ServiceBackend(name: string, ns: string, port: int)
    | PoolBackend(name: string, ns: string, poolPort: Option<int>)

  datatype Arg = Text(text: string) | Number(n: int)

  /** The one container of a Deployment. */
  datatype Container = Container(name: string, image: string, args: seq<Arg>, ports: seq<int>, resources: string)

  /** The part of an object's specification a controller writes, per kind. */
  datatype Content =
    | Nothing
    | Rules
    | Binding(role: string, subject: string, subjectNs: string)
    | Data(entries: map<string, string>)
    | Workload(matches: Labels, podLabels: Labels, account: string, container: Container, configMap: string)
    | Endpoint(svcType: string, selector: Labels, ports: seq<Port>)
    | Listener(className: string, port: int, protocol: string)
    | Route(parent: string, parentNs: string, backend: Backend)
    | Grant(fromNs: string)
    | Balancing(host: string, algorithm: string, pool: Option<(int, int)>)
    | ExtProcFilter(selector: Labels, address: string, port: int)

  /** The controller reference of an object. */
  datatype Owner = InstallOwner(name: string) | SimulatorOwner(name: string) | OtherOwner(id: string)

  /**
    `replicas` is a Deployment's spec.replicas. `rest` stands for everything no controller here writes:
    annotations, further fields, status.
  */
  datatype Obj =
    Obj(labels: Labels, owner: Option<Owner>, replicas: Option<int>, content: Content, clusterIP: string, rest: string)

  type Objects = map<Key, Obj>

  /** The server gives every new Service its cluster IP. */
  function Stored(alloc: Key -> string, key: Key, o: Obj): Obj
  {
    if key.kind.Service? then o.(clusterIP := alloc(key)) else o
  }

  // ---------- Resource fields ----------

  datatype PodSpec = PodSpec(replicas: int, image: string, args: seq<string>, resources: string)

  /** An unset field takes its default. */
  function Or(s: string, d: string): string { if s == "" then d else s }

  function OrNumber(n: int, d: int): int { if n == 0 then d else n }

  /** `d` keeps the string or number the user set. */
  predicate KeepsText(s: string, d: string) { s != "" ==> d == s }

  predicate KeepsNumber(s: int, d: int) { s != 0 ==> d == s }

  /** A selector selects the pods that carry all its labels; an empty one is none, and selects nothing. */
  predicate Selects(selector: Labels, labels: Labels)
  {
    selector != map[] && forall l :: l in selector ==> l in labels && labels[l] == selector[l]
  }

  /** 32-bit addition of one. */
  function Next32(n: int): int { if n == 0x7FFF_FFFF then -0x8000_0000 else n + 1 }

  /** It stays a 32-bit number, and is the sum up to a multiple of 2 to the 32. */
  lemma Next32Wraps(n: int)
    requires -0x8000_0000 <= n < 0x8000_0000
    ensures -0x8000_0000 <= Next32(n) < 0x8000_0000 && (Next32(n) - (n + 1)) % 0x1_0000_0000 == 0
  {
  }

  function Texts(args: seq<string>): seq<Arg>
  {
    seq(|args|, k requires 0 <= k < |args| => Text(args[k]))
  }

  // ---------- Arguments ----------

  /** The flag is among the arguments, with that value after it. */
  predicate Flagged(args: seq<Arg>, flag: string, value: Arg)
  {
    exists k :: 0 <= k < |args| - 1 && args[k] == Text(flag) && args[k + 1] == value
  }

  lemma FlagAt(xs: seq<Arg>, part: seq<Arg>, ys: seq<Arg>, k: nat, flag: string, value: Arg)
    requires k + 1 < |part| && part[k] == Text(flag) && part[k + 1] == value
    ensures Flagged(xs + part + ys, flag, value)
  {
    var args := xs + part + ys;
    assert args[|xs| + k] == part[k] && args[|xs| + k + 1] == part[k + 1];
  }

  lemma FourParts(p: seq<Arg>, q: seq<Arg>, r: seq<Arg>, u: seq<Arg>)
    ensures p + q + r + u == [] + p + (q + r + u) == p + q + (r + u)
    ensures (p + q + r + u)[|p + q + r + u| - |u|..] == u
  {
  }

  // ---------- Attempts ----------

  /** One reconcile, or one of its steps: the cluster before and after, and the Create and Update calls made. */
  datatype Attempt = Attempt(before: Objects, after: Objects, ok: bool, edits: int)

  // ---------- Create-or-update ----------

  datatype LabelEdit = KeepLabels | MergeLabels(add: Labels) | ReplaceLabels(all: Labels)

  /** What the closure of a CreateOrUpdate call does to the object it is given. */
  datatype Change = Change(labels: LabelEdit, replicas: Option<int>, content: Option<Content>, claim: Option<Owner>)

  /**
    One CreateOrUpdate call. The labels and the owner set before the call reach the server only if the
    object is missing; the closure's change reaches it always.
  */
  datatype Write = Write(key: Key, labels: Labels, owner: Option<Owner>, change: Change)

  function Fresh(w: Write): Obj { Obj(w.labels, w.owner, None, Nothing, "", "") }

  function Edit(e: LabelEdit, l: Labels): Labels
  {
    match e
    case KeepLabels => l
    case MergeLabels(add) => l + add
    case ReplaceLabels(all) => all
  }

  /** The closure at work. */
  function Mutate(w: Write, o: Obj): Obj
  {
    o.(labels := Edit(w.change.labels, o.labels),
       replicas := if w.change.replicas.Some? then w.change.replicas else o.replicas,
       content := if w.change.content.Some? then w.change.content.value else o.content,
       owner := if w.change.claim.Some? then w.change.claim else o.owner)
  }

  /** The closure fails if it claims an object that has another controller. */
  predicate Claimable(w: Write, c: Objects)
  {
    w.change.claim.Some? && w.key in c && c[w.key].owner.Some? ==> c[w.key].owner == w.change.claim
  }

  function Apply(alloc: Key -> string, w: Write, c: Objects): Objects
  {
    c[w.key := if w.key in c then Mutate(w, c[w.key]) else Stored(alloc, w.key, Mutate(w, Fresh(w)))]
  }

  function After(alloc: Key -> string, ws: seq<Write>, c: Objects): Objects
  {
    if ws == [] then c else Apply(alloc, ws[|ws| - 1], After(alloc, ws[..|ws| - 1], c))
  }

  /** The Create and Update calls the writes need: none where the closure changes nothing. */
  function Edits(alloc: Key -> string, ws: seq<Write>, c: Objects): nat
  {
    if ws == [] then 0
    else
      var d := After(alloc, ws[..|ws| - 1], c);
      Edits(alloc, ws[..|ws| - 1], c) + if Apply(alloc, ws[|ws| - 1], d) == d then 0 else 1
  }

  lemma {:induction false} AfterAppend(alloc: Key -> string, a: seq<Write>, b: seq<Write>, c: Objects)
    ensures After(alloc, a + b, c) == After(alloc, b, After(alloc, a, c))
    ensures Edits(alloc, a + b, c) == Edits(alloc, a, c) + Edits(alloc, b, After(alloc, a, c))
    decreases |b|
  {
    hide Apply;
    if b == [] {
      assert a + b == a;
    } else {
      var n := |b| - 1;
      assert (a + b)[..|a + b| - 1] == a + b[..n];
      assert (a + b)[|a + b| - 1] == b[n];
      AfterAppend(alloc, a, b[..n], c);
    }
  }

  /** A repeated run is silent exactly when no single write of it changes anything. */
  lemma {:induction false} SilentIff(alloc: Key -> string, ws: seq<Write>, d: Objects)
    ensures Edits(alloc, ws, d) == 0 <==> forall i :: 0 <= i < |ws| ==> Apply(alloc, ws[i], d) == d
    ensures Edits(alloc, ws, d) == 0 ==> After(alloc, ws, d) == d
    decreases |ws|
  {
    hide Apply;
    if ws == [] {
    } else {
      var n := |ws| - 1;
      SilentIff(alloc, ws[..n], d);
      assert forall i :: 0 <= i < n ==> ws[..n][i] == ws[i];
    }
  }

  /** The cluster IP a Service has, or would be given. */
  function AddressOf(alloc: Key -> string, c: Objects, k: Key): string
  {
    if k in c then c[k].clusterIP else alloc(k)
  }

  /** No write changes a Service's cluster IP. */
  lemma {:induction false} AddressKept(alloc: Key -> string, ws: seq<Write>, c: Objects, k: Key)
    requires k.kind.Service?
    ensures AddressOf(alloc, After(alloc, ws, c), k) == AddressOf(alloc, c, k)
    decreases |ws|
  {
    if ws == [] {
    } else {
      AddressKept(alloc, ws[..|ws| - 1], c, k);
    }
  }

  /** What a series of writes does not name stays as it is. */
  lemma {:induction false} Untouched(alloc: Key -> string, ws: seq<Write>, c: Objects, k: Key)
    requires forall i :: 0 <= i < |ws| ==> ws[i].key != k
    ensures k in After(alloc, ws, c) <==> k in c
    ensures k in c ==> After(alloc, ws, c)[k] == c[k]
    ensures After(alloc, ws, c - {k}) == After(alloc, ws, c) - {k}
    decreases |ws|
  {
    hide Mutate, Stored;
    if ws == [] {
    } else {
      var n := |ws| - 1;
      assert ws[n].key != k;
      Untouched(alloc, ws[..n], c, k);
      var d := After(alloc, ws[..n], c);
      assert Apply(alloc, ws[n], d - {k}) == Apply(alloc, ws[n], d) - {k};
    }
  }

  // ---------- The closed form of a series of writes ----------

  /** The last write on a key. */
  function LastOn(ws: seq<Write>, k: Key): Option<Write>
  {
    if ws == [] then None
    else if ws[|ws| - 1].key == k then Some(ws[|ws| - 1])
    else LastOn(ws[..|ws| - 1], k)
  }

  /** The first write on a key: the one that creates the object if it is missing. */
  function FirstOn(ws: seq<Write>, k: Key): Option<Write>
  {
    if ws == [] then None
    else if FirstOn(ws[..|ws| - 1], k).Some? then FirstOn(ws[..|ws| - 1], k)
    else if ws[|ws| - 1].key == k then Some(ws[|ws| - 1])
    else None
  }

  /** The writes overwrite the same thing, so that the later one leaves nothing of the earlier one. */
  predicate ContentOnly(w: Write)
  {
    w.change.labels.KeepLabels? && w.change.replicas.None? && w.change.content.Some? && w.change.claim.None?
  }

  /** Two different writes on one key touch its content only. */
  ghost predicate Coherent(ws: seq<Write>)
  {
    forall i, j :: 0 <= i < j < |ws| && ws[i].key == ws[j].key ==> ContentOnly(ws[i]) && ContentOnly(ws[j])
  }

  /** The object a series of writes starts from: the live one, or the first writer's template. */
  function Base(alloc: Key -> string, ws: seq<Write>, k: Key, c: Objects): Obj
    requires FirstOn(ws, k).Some?
  {
    if k in c then c[k] else Stored(alloc, k, Fresh(FirstOn(ws, k).value))
  }

  lemma MutateStored(alloc: Key -> string, w: Write, k: Key, o: Obj)
    ensures Stored(alloc, k, Mutate(w, o)) == Mutate(w, Stored(alloc, k, o))
  {
  }

  /** A later content-only write hides an earlier one; a write repeated changes nothing more. */
  lemma MutateAbsorbs(v: Write, w: Write, o: Obj)
    requires v == w || (ContentOnly(v) && ContentOnly(w))
    ensures Mutate(w, Mutate(v, o)) == Mutate(w, o)
  {
    var e := w.change.labels;
    if e.MergeLabels? { assert (o.labels + e.add) + e.add == o.labels + e.add; }
  }

  lemma {:induction false} LastOnMember(ws: seq<Write>, k: Key)
    ensures LastOn(ws, k).Some? == FirstOn(ws, k).Some?
    ensures LastOn(ws, k).Some? ==> exists i :: 0 <= i < |ws| && ws[i] == LastOn(ws, k).value && ws[i].key == k
    ensures FirstOn(ws, k).Some? ==> exists i :: 0 <= i < |ws| && ws[i] == FirstOn(ws, k).value && ws[i].key == k
    ensures LastOn(ws, k).None? ==> forall i :: 0 <= i < |ws| ==> ws[i].key != k
    decreases |ws|
  {
    if ws == [] {
    } else {
      var n := |ws| - 1;
      LastOnMember(ws[..n], k);
      if LastOn(ws[..n], k).Some? {
        var i :| 0 <= i < n && ws[..n][i] == LastOn(ws[..n], k).value && ws[..n][i].key == k;
        assert ws[i] == ws[..n][i];
        var j :| 0 <= j < n && ws[..n][j] == FirstOn(ws[..n], k).value && ws[..n][j].key == k;
        assert ws[j] == ws[..n][j];
      } else {
        forall i | 0 <= i < n ensures ws[i].key != k { assert ws[i] == ws[..n][i]; }
      }
      assert ws[n].key == k ==> ws[n] == LastOn(ws, k).value;
    }
  }

  lemma PrefixCoherent(ws: seq<Write>, n: nat)
    requires Coherent(ws) && n <= |ws|
    ensures Coherent(ws[..n])
  {
  }

  /** Any two writes of a coherent series on one key absorb each other. */
  lemma SameKeyAbsorb(ws: seq<Write>, k: Key, v: Write, w: Write)
    requires Coherent(ws) && v.key == k && w.key == k
    requires exists i :: 0 <= i < |ws| && ws[i] == v
    requires exists i :: 0 <= i < |ws| && ws[i] == w
    ensures v == w || (ContentOnly(v) && ContentOnly(w))
  {
    var i :| 0 <= i < |ws| && ws[i] == v;
    var j :| 0 <= j < |ws| && ws[j] == w;
    if i < j {
      assert ws[i].key == ws[j].key;
    } else if j < i {
      assert ws[j].key == ws[i].key;
    }
  }

  /** The closed form: untouched keys are as before; a touched key holds its base under the last write. */
  lemma {:induction false} AfterAt(alloc: Key -> string, ws: seq<Write>, c: Objects, k: Key)
    requires Coherent(ws)
    ensures LastOn(ws, k).Some? == FirstOn(ws, k).Some?
    ensures k in After(alloc, ws, c) <==> k in c || LastOn(ws, k).Some?
    ensures LastOn(ws, k).None? && k in c ==> After(alloc, ws, c)[k] == c[k]
    ensures LastOn(ws, k).Some? ==> After(alloc, ws, c)[k] == Mutate(LastOn(ws, k).value, Base(alloc, ws, k, c))
    decreases |ws|
  {
    hide Mutate, Stored;
    LastOnMember(ws, k);
    if ws == [] {
    } else {
      var n := |ws| - 1;
      var w := ws[n];
      PrefixCoherent(ws, n);
      AfterAt(alloc, ws[..n], c, k);
      if w.key == k {
        if LastOn(ws[..n], k).Some? {
          var v := LastOn(ws[..n], k).value;
          LastOnMember(ws[..n], k);
          var i :| 0 <= i < n && ws[..n][i] == v && ws[..n][i].key == k;
          assert ws[i] == v && ws[n] == w;
          SameKeyAbsorb(ws, k, v, w);
          MutateAbsorbs(v, w, Base(alloc, ws[..n], k, c));
        } else {
          MutateStored(alloc, w, k, Fresh(w));
        }
      }
    }
  }

  /** Repeating a coherent series after any prefix of it ends where running it once would have ended. */
  lemma AfterAbsorbs(alloc: Key -> string, ws: seq<Write>, n: nat, c: Objects)
    requires Coherent(ws) && n <= |ws|
    ensures After(alloc, ws, After(alloc, ws[..n], c)) == After(alloc, ws, c)
  {
    var d := After(alloc, ws[..n], c);
    var a, b := After(alloc, ws, d), After(alloc, ws, c);
    PrefixCoherent(ws, n);
    forall k ensures (k in a <==> k in b) && (k in a ==> a[k] == b[k]) {
      AbsorbAt(alloc, ws, n, c, k);
    }
  }

  lemma AbsorbAt(alloc: Key -> string, ws: seq<Write>, n: nat, c: Objects, k: Key)
    requires Coherent(ws) && n <= |ws|
    ensures var a, b := After(alloc, ws, After(alloc, ws[..n], c)), After(alloc, ws, c);
            (k in a <==> k in b) && (k in a ==> a[k] == b[k])
  {
    hide Mutate, Stored, After, Coherent;
    var d := After(alloc, ws[..n], c);
    PrefixCoherent(ws, n);
    AfterAt(alloc, ws[..n], c, k);
    AfterAt(alloc, ws, d, k);
    AfterAt(alloc, ws, c, k);
    if LastOn(ws[..n], k).Some? {
      PrefixTouches(ws, n, k);
      var v, w := LastOn(ws[..n], k).value, LastOn(ws, k).value;
      Members(ws, n, k);
      SameKeyAbsorb(ws, k, v, w);
      MutateAbsorbs(v, w, Base(alloc, ws, k, c));
    }
  }

  lemma Members(ws: seq<Write>, n: nat, k: Key)
    requires n <= |ws| && LastOn(ws[..n], k).Some? && LastOn(ws, k).Some?
    ensures exists i :: 0 <= i < |ws| && ws[i] == LastOn(ws[..n], k).value
    ensures exists i :: 0 <= i < |ws| && ws[i] == LastOn(ws, k).value
    ensures LastOn(ws[..n], k).value.key == k && LastOn(ws, k).value.key == k
  {
    LastOnMember(ws, k);
    LastOnMember(ws[..n], k);
    var i :| 0 <= i < n && ws[..n][i] == LastOn(ws[..n], k).value && ws[..n][i].key == k;
    assert ws[i] == ws[..n][i];
  }

  /** A key touched by a prefix is touched by the whole, and first by the same write. */
  lemma {:induction false} PrefixTouches(ws: seq<Write>, n: nat, k: Key)
    requires n <= |ws| && FirstOn(ws[..n], k).Some?
    ensures FirstOn(ws, k) == FirstOn(ws[..n], k) && LastOn(ws, k).Some?
    decreases |ws|
  {
    if n == |ws| {
      assert ws[..n] == ws;
      LastOnMember(ws, k);
    } else {
      var m := |ws| - 1;
      assert ws[..m][..n] == ws[..n];
      PrefixTouches(ws[..m], n, k);
    }
  }

  // ---------- The server ----------

  /** What becomes of a call: answered; refused; or carried out although the caller sees an error. */
  datatype Fate = Answered | Refused | Unacknowledged

  ghost predicate Reliable(fate: nat -> Fate) { forall n: nat :: fate(n).Answered? }

  datatype Got<T> = Found(value: T) | NotFound | GetFailed

  /** The server, with the custom resource `own` a controller works for and that resource's status. */
  class ApiServer<R, S> {
    const alloc: Key -> string
    const fate: nat -> Fate
    var objs: Objects
    var own: Option<R>
    var status: S
    var calls: nat
    /** The Create and Update calls sent. */
    var edits: nat

    constructor (alloc: Key -> string, fate: nat -> Fate, objs: Objects, own: Option<R>, status: S)
      ensures this.alloc == alloc && this.fate == fate && this.objs == objs
      ensures this.own == own && this.status == status && calls == 0 && edits == 0
    {
      this.alloc, this.fate, this.objs, this.own, this.status := alloc, fate, objs, own, status;
      calls, edits := 0, 0;
    }

    method Call() returns (f: Fate)
      modifies this`calls
      ensures Reliable(fate) ==> f.Answered?
    {
      f := fate(calls);
      calls := calls + 1;
    }

    method GetOwn() returns (r: Got<R>)
      modifies this`calls
      ensures r.Found? ==> own == Some(r.value)
      ensures r.NotFound? ==> own.None?
      ensures Reliable(fate) ==> !r.GetFailed?
    {
      var f := Call();
      if !f.Answered? { return GetFailed; }
      if own.None? { return NotFound; }
      r := Found(own.value);
    }

    method SetStatus(s: S) returns (ok: bool)
      modifies this`calls, this`status
      ensures status == s || (!ok && status == old(status))
      ensures Reliable(fate) ==> ok
    {
      var f := Call();
      if f.Refused? { return false; }
      status := s;
      ok := f.Answered?;
    }

    method Get(key: Key) returns (r: Got<Obj>)
      modifies this`calls
      ensures r.Found? ==> key in objs && objs[key] == r.value
      ensures r.NotFound? ==> key !in objs
      ensures Reliable(fate) ==> !r.GetFailed?
    {
      var f := Call();
      if !f.Answered? { return GetFailed; }
      if key !in objs { return NotFound; }
      r := Found(objs[key]);
    }

    /** Create fails if the key exists already. */
    method Create(key: Key, o: Obj) returns (ok: bool)
      modifies this`objs, this`calls, this`edits
      ensures edits == old(edits) + 1
      ensures ok ==> key !in old(objs) && objs == old(objs)[key := Stored(alloc, key, o)]
      ensures !ok ==> objs == old(objs) || (key !in old(objs) && objs == old(objs)[key := Stored(alloc, key, o)])
      ensures Reliable(fate) && key !in old(objs) ==> ok
    {
      var f := Call();
      edits := edits + 1;
      if f.Refused? || key in objs { return false; }
      objs := objs[key := Stored(alloc, key, o)];
      ok := f.Answered?;
    }

    method Update(key: Key, o: Obj) returns (ok: bool)
      modifies this`objs, this`calls, this`edits
      ensures edits == old(edits) + 1
      ensures ok ==> key in old(objs) && objs == old(objs)[key := o]
      ensures !ok ==> objs == old(objs) || (key in old(objs) && objs == old(objs)[key := o])
      ensures Reliable(fate) && key in old(objs) ==> ok
    {
      var f := Call();
      edits := edits + 1;
      if f.Refused? || key !in objs { return false; }
      objs := objs[key := o];
      ok := f.Answered?;
    }

    /** Delete; a missing object is not an error for the callers here. */
    method Delete(key: Key) returns (ok: bool)
      modifies this`objs, this`calls
      ensures objs == old(objs) - {key} || (!ok && objs == old(objs))
      ensures Reliable(fate) ==> ok
    {
      var f := Call();
      if f.Refused? { return false; }
      objs := objs - {key};
      ok := f.Answered?;
    }

    /** controllerutil.CreateOrUpdate: read, run the closure, then create, update or leave alone. */
    method CreateOrUpdate(w: Write) returns (ok: bool)
      modifies this`objs, this`calls, this`edits
      ensures ok ==> Claimable(w, old(objs)) && objs == Apply(alloc, w, old(objs))
      ensures !ok ==> objs == old(objs) || (Claimable(w, old(objs)) && objs == Apply(alloc, w, old(objs)))
      ensures ok ==> edits == old(edits) + if objs == old(objs) then 0 else 1
      ensures Reliable(fate) && Claimable(w, old(objs)) ==> ok
      ensures old(objs).Keys <= objs.Keys && (ok ==> w.key in objs)
    {
      hide Mutate, Stored;
      var g := Get(w.key);
      match g
      case GetFailed => ok := false;
      case NotFound =>
        ok := Create(w.key, Mutate(w, Fresh(w)));
        assert w.key !in old(objs);
      case Found(o) =>
        if w.change.claim.Some? && o.owner.Some? && o.owner != w.change.claim { return false; }
        var n := Mutate(w, o);
        if n == o {
          assert objs[w.key := n] == objs;
          return true;
        }
        ok := Update(w.key, n);
        assert old(objs)[w.key] != n;
    }
  }
}
