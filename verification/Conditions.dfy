/** The status conditions both reconcilers keep, and the loop that writes "Ready". */
module Conditions {

  datatype Condition = Condition(name: string, status: bool, reason: string, message: string, at: int)

  const READY := "Ready"

  /** What one status update makes of the conditions. */
  function SetReady(cs: seq<Condition>, c: Condition): seq<Condition>
  {
    if cs == [] then [c]
    else if cs[0].name == READY then [c] + cs[1..]
    else [cs[0]] + SetReady(cs[1..], c)
  }

  function ReadyCount(cs: seq<Condition>): nat
  {
    if cs == [] then 0 else (if cs[0].name == READY then 1 else 0) + ReadyCount(cs[1..])
  }

  /** The conditions other than "Ready", in order. */
  function Others(cs: seq<Condition>): seq<Condition>
  {
    if cs == [] then [] else (if cs[0].name == READY then [] else [cs[0]]) + Others(cs[1..])
  }

  function AfterUpdates(cs: seq<Condition>, updates: seq<Condition>): seq<Condition>
    decreases |updates|
  {
    if updates == [] then cs else AfterUpdates(SetReady(cs, updates[0]), updates[1..])
  }

  predicate NoneReady(cs: seq<Condition>) { forall j :: 0 <= j < |cs| ==> cs[j].name != READY }

  lemma {:induction false} SetReadySplit(cs: seq<Condition>, i: nat, c: Condition)
    requires i <= |cs| && NoneReady(cs[..i])
    ensures SetReady(cs, c) == cs[..i] + SetReady(cs[i..], c)
    decreases i
  {
    if i == 0 {
      assert cs[0..] == cs && cs[..0] + SetReady(cs, c) == SetReady(cs, c);
    } else {
      assert cs[0] == cs[..i][0];
      assert cs[1..][..i - 1] == cs[..i][1..] && cs[1..][i - 1..] == cs[i..];
      SetReadySplit(cs[1..], i - 1, c);
      assert [cs[0]] + cs[1..][..i - 1] == cs[..i];
    }
  }

  /** The loop: overwrite the first "Ready" and stop, or append. */
  method UpdateConditions(latest: seq<Condition>, c: Condition) returns (cs: seq<Condition>)
    ensures cs == SetReady(latest, c)
  {
    cs := latest;
    var found := false;
    for i := 0 to |cs|
      invariant cs == latest && !found && NoneReady(latest[..i])
    {
      if cs[i].name == READY {
        SetReadySplit(latest, i, c);
        assert latest[i..][1..] == latest[i + 1..];
        cs := cs[i := c];
        found := true;
        break;
      }
      assert latest[..i + 1] == latest[..i] + [latest[i]];
    }
    if !found {
      SetReadySplit(latest, |latest|, c);
      assert latest[..|latest|] == latest && latest[|latest|..] == [];
      cs := cs + [c];
    }
  }

  ghost predicate FirstReady(cs: seq<Condition>, c: Condition)
  {
    exists i :: 0 <= i < |cs| && cs[i] == c && (forall j :: 0 <= j < i ==> cs[j].name != READY)
  }

  /** Updates overwrite at most the first "Ready" and never add a second: exact count, others untouched. */
  lemma {:induction false} SetReadyExact(cs: seq<Condition>, c: Condition)
    requires c.name == READY
    ensures ReadyCount(SetReady(cs, c)) == if ReadyCount(cs) == 0 then 1 else ReadyCount(cs)
    ensures Others(SetReady(cs, c)) == Others(cs)
    ensures |SetReady(cs, c)| == |cs| + if ReadyCount(cs) == 0 then 1 else 0
  {
    if cs != [] && cs[0].name != READY {
      SetReadyExact(cs[1..], c);
      assert SetReady(cs, c)[1..] == SetReady(cs[1..], c);
    } else if cs != [] {
      assert SetReady(cs, c)[1..] == cs[1..];
    }
  }

  /** The update is the first "Ready" of the result, and every other condition keeps its place. */
  lemma {:induction false} SetReadyPlace(cs: seq<Condition>, c: Condition)
    requires c.name == READY
    ensures |SetReady(cs, c)| >= |cs|
    ensures forall i :: 0 <= i < |cs| && cs[i].name != READY ==> SetReady(cs, c)[i] == cs[i]
    ensures FirstReady(SetReady(cs, c), c)
  {
    var s := SetReady(cs, c);
    if cs == [] || cs[0].name == READY {
      assert s[0] == c;
    } else {
      SetReadyPlace(cs[1..], c);
      var t := SetReady(cs[1..], c);
      assert s == [cs[0]] + t;
      var i :| 0 <= i < |t| && t[i] == c && (forall j :: 0 <= j < i ==> t[j].name != READY);
      assert s[i + 1] == c;
      assert forall j :: 0 < j < i + 1 ==> s[j] == t[j - 1];
    }
  }

  /**
    Any run of status updates: from at most one "Ready" there is at most one, and exactly one once an
    update has been made; the other conditions keep their places and their order.
  */
  lemma {:induction false} OneReady(cs: seq<Condition>, updates: seq<Condition>)
    requires forall u :: u in updates ==> u.name == READY
    ensures var out := AfterUpdates(cs, updates);
            ReadyCount(out) == if updates != [] && ReadyCount(cs) == 0 then 1 else ReadyCount(cs)
    ensures Others(AfterUpdates(cs, updates)) == Others(cs)
    ensures |AfterUpdates(cs, updates)| == |cs| + if updates != [] && ReadyCount(cs) == 0 then 1 else 0
    ensures forall i :: 0 <= i < |cs| && cs[i].name != READY ==> AfterUpdates(cs, updates)[i] == cs[i]
    decreases |updates|
  {
    hide SetReady, ReadyCount, Others;
    if updates == [] {
    } else {
      SetReadyExact(cs, updates[0]);
      SetReadyPlace(cs, updates[0]);
      OneReady(SetReady(cs, updates[0]), updates[1..]);
    }
  }
}
