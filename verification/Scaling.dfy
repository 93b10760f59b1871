/** What one scaling pass does to the stored machines, and what sequences of passes lead to. */
module Scaling {
  import opened Collections
  import opened Int32
  import opened Protocol
  import opened ApiServer

  function UidsOf(items: seq<MachineItem>): set<Uid> {
    set it | it in items :: it.uid
  }

  function Deficit(items: seq<MachineItem>, replicas: int32): nat {
    if Narrow(|items|) < replicas then replicas - Narrow(|items|) else 0
  }

  function Surplus(items: seq<MachineItem>, replicas: int32): nat {
    if Narrow(|items|) > replicas then Narrow(|items|) - replicas else 0
  }

  // How many items, from the front of the list, a pass never touches.
  function Kept(items: seq<MachineItem>, replicas: int32): nat {
    if Surplus(items, replicas) <= |items| then |items| - Surplus(items, replicas) else 0
  }

  // `after` is `before` with new machines of this control plane and without some listed ones.
  ghost predicate Changed(kcp: Uid, before: map<Uid, Machine>, after: map<Uid, Machine>, added: set<Uid>,
                          dropped: set<Uid>)
  {
    && added !! before.Keys && dropped <= before.Keys
    && after.Keys == before.Keys - dropped + added
    && forall m | m in after :: after[m] == if m in added then Machine(kcp, false, []) else before[m]
  }

  // One pass over the listed items, with whatever calls failed; `all` says that none did.
  ghost predicate Pass(kcp: Uid, before: map<Uid, Machine>, after: map<Uid, Machine>, items: seq<MachineItem>,
                       replicas: int32, added: set<Uid>, dropped: set<Uid>, all: bool)
  {
    && Changed(kcp, before, after, added, dropped)
    && |added| <= Deficit(items, replicas)
    && dropped <= UidsOf(items[Kept(items, replicas)..])
    && (all ==> |added| == Deficit(items, replicas))
    && (all ==> dropped == UidsOf(items[Kept(items, replicas)..]) * before.Keys)
  }

  lemma {:induction false} DistinctCount(items: seq<MachineItem>)
    requires DistinctUids(items)
    ensures |UidsOf(items)| == |items|
  {
    if items != [] {
      var n := |items| - 1;
      DistinctCount(items[..n]);
      assert items == items[..n] + [items[n]];
      assert UidsOf(items) == UidsOf(items[..n]) + {items[n].uid};
    }
  }

  lemma ListCounts(items: seq<MachineItem>, machines: map<Uid, Machine>)
    requires ListsMachines(items, machines)
    ensures UidsOf(items) == machines.Keys && |items| == |machines| && DistinctUids(items)
  {
    DistinctCount(items);
  }

  function Distance(machines: map<Uid, Machine>, replicas: int32): nat {
    if |machines| < replicas then replicas - |machines| else |machines| - replicas
  }

  lemma ChangedSize(kcp: Uid, before: map<Uid, Machine>, after: map<Uid, Machine>, added: set<Uid>, dropped: set<Uid>)
    requires Changed(kcp, before, after, added, dropped)
    ensures |after| == |before| - |dropped| + |added| && |dropped| <= |before|
  {
    SubsetSize(dropped, before.Keys);
    assert |before.Keys - dropped| == |before| - |dropped|;
    assert |after.Keys| == |before.Keys - dropped| + |added|;
  }

  lemma UidsSplit(items: seq<MachineItem>, keep: nat)
    requires DistinctUids(items) && keep <= |items|
    ensures UidsOf(items) == UidsOf(items[..keep]) + UidsOf(items[keep..])
    ensures UidsOf(items[..keep]) !! UidsOf(items[keep..])
    ensures |UidsOf(items[keep..])| == |items| - keep && |UidsOf(items)| == |items|
  {
    DistinctCount(items);
    DistinctCount(items[keep..]);
    forall u | u in UidsOf(items) ensures u in UidsOf(items[..keep]) + UidsOf(items[keep..]) {
      var i :| 0 <= i < |items| && items[i].uid == u;
      if i < keep {
        assert items[..keep][i] == items[i];
      } else {
        assert items[keep..][i - keep] == items[i];
      }
    }
  }

  /** Reading a current list, a pass never moves the number of machines away from the target or past it; it
      closes the distance by exactly the number of calls that succeeded, whichever failed. */
  lemma PassConverges(kcp: Uid, before: map<Uid, Machine>, after: map<Uid, Machine>, items: seq<MachineItem>,
                      replicas: int32, added: set<Uid>, dropped: set<Uid>, all: bool)
    requires Pass(kcp, before, after, items, replicas, added, dropped, all)
    requires ListsMachines(items, before) && |before| <= MAX && replicas >= 0
    ensures Distance(after, replicas) == Distance(before, replicas) - |added| - |dropped|
    ensures |before| <= replicas ==> |before| <= |after| <= replicas
    ensures |before| >= replicas ==> |before| >= |after| >= replicas
    ensures all ==> |after| == replicas
  {
    hide Narrow, ListsMachines, UidsOf, Changed, DistinctUids;
    ListCounts(items, before);
    ChangedSize(kcp, before, after, added, dropped);
    var keep := Kept(items, replicas);
    UidsSplit(items, keep);
    SubsetSize(dropped, UidsOf(items[keep..]));
    assert UidsOf(items[keep..]) * before.Keys == UidsOf(items[keep..]);
  }

  /** If every delete of a scale-down succeeds, the survivors are the first `replicas` listed machines. */
  lemma SurvivorsAreTheFirst(kcp: Uid, before: map<Uid, Machine>, after: map<Uid, Machine>, items: seq<MachineItem>,
                             replicas: int32, added: set<Uid>, dropped: set<Uid>)
    requires Pass(kcp, before, after, items, replicas, added, dropped, true)
    requires ListsMachines(items, before) && |before| <= MAX && 0 <= replicas <= |items|
    ensures after.Keys == UidsOf(items[..replicas])
    ensures forall m | m in after :: after[m] == before[m]
  {
    hide Narrow, ListsMachines, UidsOf, DistinctUids;
    ListCounts(items, before);
    UidsSplit(items, replicas);
    assert Kept(items, replicas) == replicas;
    assert added == {};
    assert dropped == UidsOf(items[replicas..]);
  }

  /** Scaling up from a stale list overshoots by exactly what the list missed. */
  lemma StaleListOvershoots(kcp: Uid, before: map<Uid, Machine>, after: map<Uid, Machine>, items: seq<MachineItem>,
                            replicas: int32, added: set<Uid>, dropped: set<Uid>)
    requires Pass(kcp, before, after, items, replicas, added, dropped, true)
    requires |items| < replicas
    ensures |after| - replicas == |before| - |items|
  {
    hide Narrow;
    ChangedSize(kcp, before, after, added, dropped);
    assert items[Kept(items, replicas)..] == [];
    assert dropped == {};
  }

  /** No call is made exactly when the listed number, as an int32, is the target. */
  lemma NoCallAtTarget(items: seq<MachineItem>, replicas: int32)
    ensures ScaleTasks(items, replicas) == [] <==> Narrow(|items|) == replicas
  {
  }

  // --- Counting for the status ----------------------------------------------------------------------------

  function OwnedBy(machines: map<Uid, Machine>, kcp: Uid): set<Uid> {
    set m | m in machines && machines[m].controller == kcp
  }

  function OwnedReady(machines: map<Uid, Machine>, kcp: Uid, ready: bool): set<Uid> {
    set m | m in machines && machines[m].controller == kcp && machines[m].ready == ready
  }

  lemma {:induction false} ControlledAppend(items: seq<MachineItem>, it: MachineItem, kcp: Uid, ready: bool)
    ensures Controlled(items + [it], kcp, ready)
         == Controlled(items, kcp, ready) + if it.machine.controller == kcp && it.machine.ready == ready then 1 else 0
  {
    if items != [] {
      ControlledAppend(items[1..], it, kcp, ready);
      assert (items + [it])[1..] == items[1..] + [it];
    } else {
      assert items + [it] == [it] && [it][1..] == [];
      assert Controlled([it][1..], kcp, ready) == 0;
    }
  }

  function Matching(items: seq<MachineItem>, kcp: Uid, ready: bool): set<Uid> {
    set it | it in items && it.machine.controller == kcp && it.machine.ready == ready :: it.uid
  }

  lemma MatchingAppend(items: seq<MachineItem>, it: MachineItem, kcp: Uid, ready: bool)
    ensures Matching(items + [it], kcp, ready)
         == Matching(items, kcp, ready)
            + if it.machine.controller == kcp && it.machine.ready == ready then {it.uid} else {}
  {
    assert forall x :: x in items + [it] <==> x in items || x == it;
  }

  lemma {:induction false} ControlledIsCount(items: seq<MachineItem>, kcp: Uid, ready: bool)
    requires DistinctUids(items)
    ensures Controlled(items, kcp, ready) == |Matching(items, kcp, ready)|
  {
    if items != [] {
      var n := |items| - 1;
      var it := items[n];
      ControlledIsCount(items[..n], kcp, ready);
      assert items == items[..n] + [it];
      ControlledAppend(items[..n], it, kcp, ready);
      MatchingAppend(items[..n], it, kcp, ready);
      assert it.uid !in Matching(items[..n], kcp, ready);
    }
  }

  lemma SplitSize(machines: map<Uid, Machine>, kcp: Uid)
    ensures |OwnedBy(machines, kcp)| == |OwnedReady(machines, kcp, true)| + |OwnedReady(machines, kcp, false)|
    ensures |OwnedBy(machines, kcp)| <= |machines|
    ensures |machines.Keys - OwnedBy(machines, kcp)| == |machines| - |OwnedBy(machines, kcp)|
  {
    var yes, no, owned := OwnedReady(machines, kcp, true), OwnedReady(machines, kcp, false), OwnedBy(machines, kcp);
    assert owned == yes + no && yes !! no;
    SubsetSize(owned, machines.Keys);
  }

  /** Over a current list, ready plus unavailable is the number of stored machines this control plane
      controls, and what is missing from the number used for scaling are exactly the others' machines. */
  lemma StatusConserves(items: seq<MachineItem>, machines: map<Uid, Machine>, kcp: Uid)
    requires ListsMachines(items, machines) && |machines| <= MAX
    ensures var st := StatusOf(items, kcp);
            && st.readyReplicas == |OwnedReady(machines, kcp, true)|
            && st.readyReplicas + st.unavailableReplicas == |OwnedBy(machines, kcp)|
            && |items| - (st.readyReplicas + st.unavailableReplicas) == |machines.Keys - OwnedBy(machines, kcp)|
            && (st.ready <==> exists m | m in machines :: machines[m].controller == kcp && machines[m].ready)
            && st.initialized == st.ready == (st.readyReplicas > 0) && st.external
  {
    ListCounts(items, machines);
    CountOwned(items, machines, kcp, true);
    CountOwned(items, machines, kcp, false);
    hide Narrow, Controlled, ListsMachines;
    SplitSize(machines, kcp);
    var yes := OwnedReady(machines, kcp, true);
    assert |yes| > 0 <==> exists m | m in machines :: machines[m].controller == kcp && machines[m].ready by {
      if |yes| > 0 {
        var m :| m in yes;
        assert machines[m].controller == kcp && machines[m].ready;
      }
      if m :| m in machines && machines[m].controller == kcp && machines[m].ready {
        assert m in yes;
      }
    }
  }

  lemma CountOwned(items: seq<MachineItem>, machines: map<Uid, Machine>, kcp: Uid, ready: bool)
    requires ListsMachines(items, machines)
    ensures Controlled(items, kcp, ready) == |OwnedReady(machines, kcp, ready)|
  {
    ControlledIsCount(items, kcp, ready);
    assert OwnedReady(machines, kcp, ready) == Matching(items, kcp, ready);
  }

  /** A reconcile in which nothing fails, on current lists and with no machine of anyone else, ends with
      exactly the target number of ready and unavailable machines in its status. */
  lemma FaultFreeMeetsTarget(kcp: Uid, before: map<Uid, Machine>, after: map<Uid, Machine>, items: seq<MachineItem>,
                             replicas: int32, added: set<Uid>, dropped: set<Uid>, counted: seq<MachineItem>)
    requires Pass(kcp, before, after, items, replicas, added, dropped, true)
    requires ListsMachines(items, before) && ListsMachines(counted, after)
    requires |before| <= MAX && replicas >= 0
    requires forall m | m in before :: before[m].controller == kcp
    ensures var st := StatusOf(counted, kcp); st.readyReplicas + st.unavailableReplicas == replicas
  {
    assert OwnedBy(after, kcp) == after.Keys by {
      hide Narrow, ListsMachines, UidsOf, DistinctUids;
      forall m | m in after ensures after[m].controller == kcp {
      }
    }
    hide Narrow, ListsMachines, UidsOf, DistinctUids, StatusOf, Pass, OwnedBy;
    PassConverges(kcp, before, after, items, replicas, added, dropped, true);
    StatusConserves(counted, after, kcp);
  }
}
