/** The control-plane reconcile: the gate, the certificates, the scaling loops and the status. */
module ControlPlane {
  import opened Int32
  import opened Protocol
  import opened Safety
  import opened ApiServer
  import opened Certificates
  import opened CertificatesManager
  import opened Scaling

  datatype ControlPlaneSpec = ControlPlaneSpec(replicas: Option<int32>)

  // What the first Get of a reconcile gives.
  datatype Fetched = Gone | Unreadable | Got(spec: ControlPlaneSpec)

  datatype Outcome = Done | Waiting | Requeue | Panicked

  // Counting one more in an int32 that may wrap around.
  lemma NarrowStep(x: int)
    ensures Narrow(Narrow(x) + 1) == Narrow(x + 1)
    ensures Narrow(x) < MAX ==> Narrow(x + 1) == Narrow(x) + 1
    ensures Narrow(x) > MIN ==> Narrow(x - 1) == Narrow(x) - 1
  {
  }

  lemma TasksUnfold(n: nat, items: seq<MachineItem>, rest: seq<Task>)
    ensures n > 0 ==> AddTasks(n) + rest == [AddMachine] + (AddTasks(n - 1) + rest)
    ensures AddTasks(0) + rest == rest && DropTasks(items, 0) + rest == rest
    ensures n > 0 && items != [] ==> (
              var last := |items| - 1;
              DropTasks(items, n) + rest == [DropMachine(items[last].uid)] + (DropTasks(items[..last], n - 1) + rest))
  {
  }

  lemma OneMoreAdded(kcp: Uid, before: map<Uid, Machine>, now: map<Uid, Machine>, added: set<Uid>, m: Uid)
    requires Changed(kcp, before, now, added, {}) && m !in now
    ensures Changed(kcp, before, now[m := Machine(kcp, false, [])], added + {m}, {})
    ensures m !in added
  {
  }

  lemma OneMoreDropped(kcp: Uid, before: map<Uid, Machine>, now: map<Uid, Machine>, dropped: set<Uid>, m: Uid)
    requires Changed(kcp, before, now, {}, dropped)
    ensures m in now <==> m in before && m !in dropped
    ensures m in now ==> Changed(kcp, before, now - {m}, {}, dropped + {m})
  {
  }

  lemma NothingChanged(kcp: Uid, machines: map<Uid, Machine>)
    ensures Changed(kcp, machines, machines, {}, {})
  {
  }

  lemma GrowthIsAPass(kcp: Uid, before: map<Uid, Machine>, after: map<Uid, Machine>, items: seq<MachineItem>,
                      replicas: int32, added: set<Uid>, all: bool)
    requires Changed(kcp, before, after, added, {}) && Narrow(|items|) < replicas
    requires |added| <= replicas - Narrow(|items|) && (all ==> |added| == replicas - Narrow(|items|))
    ensures Pass(kcp, before, after, items, replicas, added, {}, all)
  {
    assert items[Kept(items, replicas)..] == [];
    NoUids([]);
  }

  lemma ShrinkingIsAPass(kcp: Uid, before: map<Uid, Machine>, after: map<Uid, Machine>, items: seq<MachineItem>,
                         replicas: int32, dropped: set<Uid>, all: bool)
    requires Changed(kcp, before, after, {}, dropped) && Narrow(|items|) >= replicas
    requires dropped <= UidsOf(items[Kept(items, replicas)..])
    requires all ==> dropped == UidsOf(items[Kept(items, replicas)..]) * before.Keys
    ensures Pass(kcp, before, after, items, replicas, {}, dropped, all)
  {
    hide Narrow, UidsOf, Changed;
  }

  // A stored status says that the control plane is managed externally, and ready with the first ready machine.
  predicate Flagged(status: Option<ControlPlaneStatus>) {
    && status.Some? && status.value.external
    && status.value.initialized == status.value.ready == (status.value.readyReplicas > 0)
  }

  class KinkControlPlaneReconciler {
    const server: Server

    constructor (server: Server)
      ensures this.server == server
    {
      this.server := server;
    }

    ghost predicate Running(me: Pid)
      reads server
    {
      server.Valid() && IsControlPlane(server.sys, me)
    }

    ghost function Todo(me: Pid): seq<Task>
      requires me in server.sys.procs
      reads server
    {
      server.sys.procs[me].todo
    }

    // One call of the loop that creates, whether it fails or not.
    method CreateOne(me: Pid, ghost before: map<Uid, Machine>, ghost added: set<Uid>, ghost rest: seq<Task>)
      returns (ghost more: set<Uid>)
      requires Running(me) && Todo(me) == [AddMachine] + rest
      requires server.quiet ==> Changed(server.cfg.kcp, before, server.sys.machines, added, {})
      modifies server
      ensures Running(me) && old(server.log) <= server.log && Todo(me) == rest
      ensures server.quiet ==> Changed(server.cfg.kcp, before, server.sys.machines, more, {})
      ensures more == added || (server.quiet && |more| == |added| + 1)
      ensures server.quiet && server.reliable ==> |more| == |added| + 1
    {
      hide Run, WellFormed, Changed;
      UidIsNew(server);
      ghost var m, now := server.sys.nextUid, server.sys.machines;
      var ok := server.CreateMachine(me);
      more := added;
      if server.quiet && ok {
        OneMoreAdded(server.cfg.kcp, before, now, added, m);
        more := added + {m};
      }
    }

    // The loop that creates what is missing.
    method Grow(me: Pid, listed: nat, replicas: int32, ghost rest: seq<Task>) returns (ghost added: set<Uid>)
      requires Running(me) && Narrow(listed) <= replicas
      requires Todo(me) == AddTasks(replicas - Narrow(listed)) + rest
      modifies server
      ensures Running(me) && old(server.log) <= server.log && Todo(me) == rest
      ensures server.quiet ==> Changed(server.cfg.kcp, old(server.sys.machines), server.sys.machines, added, {})
      ensures |added| <= replicas - Narrow(listed)
      ensures server.quiet && server.reliable ==> |added| == replicas - Narrow(listed)
    {
      hide Narrow, Run, WellFormed, AddTasks, Changed;
      NothingChanged(server.cfg.kcp, server.sys.machines);
      added := {};
      var i := listed;
      while Narrow(i) < replicas
        invariant Running(me) && old(server.log) <= server.log
        invariant Narrow(listed) <= Narrow(i) <= replicas
        invariant Todo(me) == AddTasks(replicas - Narrow(i)) + rest
        invariant server.quiet ==> Changed(server.cfg.kcp, old(server.sys.machines), server.sys.machines, added, {})
        invariant |added| <= Narrow(i) - Narrow(listed)
        invariant server.quiet && server.reliable ==> |added| == Narrow(i) - Narrow(listed)
        decreases replicas - Narrow(i)
      {
        NarrowStep(i);
        TasksUnfold(replicas - Narrow(i), [], rest);
        added := CreateOne(me, old(server.sys.machines), added, AddTasks(replicas - Narrow(i) - 1) + rest);
        i := i + 1;
      }
      TasksUnfold(0, [], rest);
    }

    // One call of the loop that deletes, whether it fails or not.
    method DropOne(me: Pid, victim: Uid, ghost before: map<Uid, Machine>, ghost dropped: set<Uid>,
                   ghost rest: seq<Task>)
      returns (ghost more: set<Uid>)
      requires Running(me) && Todo(me) == [DropMachine(victim)] + rest
      requires server.quiet ==> Changed(server.cfg.kcp, before, server.sys.machines, {}, dropped)
      modifies server
      ensures Running(me) && old(server.log) <= server.log && Todo(me) == rest
      ensures server.quiet ==> Changed(server.cfg.kcp, before, server.sys.machines, {}, more)
      ensures dropped <= more <= dropped + {victim}
      ensures server.quiet && server.reliable ==> more == dropped + {victim} * before.Keys
    {
      hide Run, WellFormed, Changed;
      if server.quiet {
        OneMoreDropped(server.cfg.kcp, before, server.sys.machines, dropped, victim);
      }
      var ok := server.DeleteMachine(me, victim);
      more := if ok then dropped + {victim} else dropped;
    }

    // The loop that deletes what is too much, from the end of the list.
    method Shrink(me: Pid, items: seq<MachineItem>, replicas: int32, ghost rest: seq<Task>)
      returns (panicked: bool, ghost dropped: set<Uid>)
      requires Running(me) && Narrow(|items|) >= replicas
      requires Todo(me) == DropTasks(items, Narrow(|items|) - replicas) + rest
      modifies server
      ensures Running(me) && old(server.log) <= server.log
      ensures panicked <==> replicas < 0 && |items| <= MAX
      ensures !panicked ==> Todo(me) == rest
      ensures server.quiet ==> Changed(server.cfg.kcp, old(server.sys.machines), server.sys.machines, {}, dropped)
      ensures server.quiet ==> dropped <= UidsOf(items[Kept(items, replicas)..])
      ensures server.quiet && server.reliable ==>
                dropped == UidsOf(items[Kept(items, replicas)..]) * old(server.sys.machines).Keys
    {
      hide Narrow, Run, WellFormed, DropTasks, UidsOf, Changed;
      NothingChanged(server.cfg.kcp, server.sys.machines);
      dropped := {};
      assert UidsOf(items[|items|..]) == {} by {
        NoUids(items[|items|..]);
      }
      var i := |items|;
      ghost var offset := |items| - Narrow(|items|);
      assert items[..i] == items;
      while Narrow(i) > replicas
        invariant 0 <= i <= |items| && Narrow(i) == i - offset && Narrow(i) >= replicas
        invariant Running(me) && old(server.log) <= server.log
        invariant Todo(me) == DropTasks(items[..i], Narrow(i) - replicas) + rest
        invariant server.quiet ==> Changed(server.cfg.kcp, old(server.sys.machines), server.sys.machines, {}, dropped)
        invariant server.quiet ==> dropped <= UidsOf(items[i..])
        invariant server.quiet && server.reliable ==> dropped == UidsOf(items[i..]) * old(server.sys.machines).Keys
        decreases Narrow(i) - replicas
      {
        if i - 1 < 0 {
          panicked := true;  // the index is out of range
          return;
        }
        NarrowStep(i);
        TasksUnfold(Narrow(i) - replicas, items[..i], rest);
        assert items[..i][..i - 1] == items[..i - 1];
        TailGrows(items, i - 1);
        var victim := items[i - 1].uid;
        dropped := DropOne(me, victim, old(server.sys.machines), dropped,
                           DropTasks(items[..i - 1], Narrow(i) - replicas - 1) + rest);
        i := i - 1;
      }
      TasksUnfold(0, items[..i], rest);
      panicked := false;
    }

    /** Lists the machines of the cluster and creates or deletes until the listed number meets the target,
        ignoring every call that fails. A negative target makes it reach index -1 of the list. */
    method LookupOrCreateMachines(me: Pid, spec: ControlPlaneSpec)
      returns (outcome: Outcome, ghost items: seq<MachineItem>, ghost added: set<Uid>, ghost dropped: set<Uid>)
      requires Running(me) && Todo(me) == [ListMachines, CountMachines]
      requires server.sys.procs[me].actor.replicas == spec.replicas.GetOr(0)
      modifies server
      ensures Running(me) && old(server.log) <= server.log
      ensures outcome == Done ==> Todo(me) == [CountMachines]
      ensures outcome in {Done, Requeue, Panicked}
      ensures outcome == Panicked <==> outcome != Requeue && spec.replicas.GetOr(0) < 0 && |items| <= MAX
      ensures outcome == Done && server.quiet ==>
                Pass(server.cfg.kcp, old(server.sys.machines), server.sys.machines, items, spec.replicas.GetOr(0),
                     added, dropped, server.reliable)
      ensures outcome != Requeue && server.quiet && server.current ==> ListsMachines(items, old(server.sys.machines))
      ensures server.reliable ==> outcome != Requeue
    {
      hide Narrow, Run, WellFormed, AddTasks, DropTasks, Pass;
      added, dropped, items := {}, {}, [];
      var list := server.ListMachines(me);
      if list.None? {
        outcome := Requeue;
        return;
      }
      items := list.value;
      var replicas: int32 := 0;
      if spec.replicas.Some? {
        replicas := spec.replicas.value;
      }
      assert [ListMachines, CountMachines][1..] == [CountMachines];
      if Narrow(|list.value|) < replicas {
        ghost var before := server.sys.machines;
        added := Grow(me, |list.value|, replicas, [CountMachines]);
        outcome := Done;
        if server.quiet {
          GrowthIsAPass(server.cfg.kcp, before, server.sys.machines, items, replicas, added, server.reliable);
        }
      } else {
        var panicked: bool;
        ghost var before := server.sys.machines;
        panicked, dropped := Shrink(me, list.value, replicas, [CountMachines]);
        outcome := if panicked then Panicked else Done;
        if server.quiet {
          ShrinkingIsAPass(server.cfg.kcp, before, server.sys.machines, items, replicas, dropped, server.reliable);
        }
      }
    }

    /** Stores the counts over the list of the cluster's machines. */
    method UpdateStatus(me: Pid) returns (outcome: Outcome, ghost items: seq<MachineItem>)
      requires Running(me) && Todo(me) == [CountMachines]
      modifies server
      ensures server.Valid() && me in server.sys.procs && old(server.log) <= server.log
      ensures outcome in {Done, Requeue}
      ensures outcome == Done ==> Todo(me) == [] && server.sys.status == Some(StatusOf(items, server.cfg.kcp))
      ensures outcome == Done ==> Flagged(server.sys.status)
      ensures server.reliable ==> outcome == Done
      ensures outcome == Done && server.quiet && server.current ==> ListsMachines(items, old(server.sys.machines))
      ensures server.quiet ==> server.sys.machines == old(server.sys.machines)
    {
      items := [];
      var list := server.CountMachines(me);
      if list.None? {
        outcome := Requeue;
        return;
      }
      items := list.value;
      var status := CountControlled(list.value, server.cfg.kcp);
      assert ([WriteControlPlane(status)] + [CountMachines][1..])[1..] == [];
      var ok := server.UpdateControlPlaneStatus(me, status);
      outcome := if ok then Done else Requeue;
    }

    // Steps 2 and 3: certificates, then the kubeconfig.
    method LookupOrGenerateSecrets(me: Pid, cluster: ClusterSpec, certOrder: seq<string>, caOrder: seq<string>)
      returns (ok: bool)
      requires Running(me) && server.cfg.tree == ShippedTreeNames() && IsCertOrder(certOrder) && IsCAOrder(caOrder)
      requires !server.sys.procs[me].missing && Todo(me) == ControlPlaneTasks(ShippedBlocks(certOrder, caOrder))
      requires server.sys.procs[me].actor.spec == cluster
      modifies server
      ensures Running(me) && old(server.log) <= server.log
      ensures server.sys.procs[me].actor == old(server.sys.procs[me].actor)
      ensures ok ==> Todo(me) == [ListMachines, CountMachines] && AllNames(server.cfg.tree) <= server.sys.secrets.Keys
      ensures server.quiet ==> server.sys.machines == old(server.sys.machines)
      ensures server.quiet && server.reliable && server.current ==> ok
    {
      hide Run, WellFormed, TreeTasks, ShippedBlocks, ShippedTreeNames, AllNames;
      var blocks := ShippedBlocks(certOrder, caOrder);
      ghost var scaling := [ListMachines, CountMachines];
      ghost var afterCAs := [PutKubeconfig] + scaling;
      assert ControlPlaneTasks(blocks) == TreeTasks(blocks) + ([PutSA] + afterCAs);
      assert afterCAs[1..] == scaling;
      var manager := new Manager(server, me, cluster);
      ghost var api: KinkCert;
      ok, api := manager.LookupOrGenerateCAs(certOrder, caOrder, afterCAs);
      if ok {
        ghost var rootCA: Option<Secret>;
        ok, rootCA := manager.LookupOrGenerateKubeconfig();
      }
    }

    // Steps 2 to 5, behind the gate.
    method BringUp(me: Pid, spec: ControlPlaneSpec, cluster: ClusterSpec, certOrder: seq<string>, caOrder: seq<string>)
      returns (outcome: Outcome, ghost items: seq<MachineItem>, ghost added: set<Uid>, ghost dropped: set<Uid>,
               ghost counted: seq<MachineItem>)
      requires Running(me) && server.cfg.tree == ShippedTreeNames() && IsCertOrder(certOrder) && IsCAOrder(caOrder)
      requires !server.sys.procs[me].missing && Todo(me) == ControlPlaneTasks(ShippedBlocks(certOrder, caOrder))
      requires server.sys.procs[me].actor == ControlPlaneActor(spec.replicas.GetOr(0), cluster)
      modifies server
      ensures Running(me) && old(server.log) <= server.log
      ensures server.sys.procs[me].actor.spec == cluster && cluster in server.sys.everOpen
      ensures outcome in {Done, Requeue, Panicked}
      ensures outcome == Done ==>
                && Todo(me) == [] && AllNames(server.cfg.tree) <= server.sys.secrets.Keys
                && server.sys.status == Some(StatusOf(counted, server.cfg.kcp)) && Flagged(server.sys.status)
      ensures outcome == Done && server.quiet ==>
                Pass(server.cfg.kcp, old(server.sys.machines), server.sys.machines, items, spec.replicas.GetOr(0),
                     added, dropped, server.reliable)
      ensures outcome == Done && server.quiet && server.current ==>
                ListsMachines(items, old(server.sys.machines)) && ListsMachines(counted, server.sys.machines)
      ensures outcome == Panicked ==> spec.replicas.GetOr(0) < 0
      ensures server.quiet && server.current && server.reliable ==>
                (outcome == Done <==> spec.replicas.GetOr(0) >= 0 || |items| > MAX)
    {
      hide Narrow, Run, WellFormed, Pass, ListsMachines, ShippedTreeNames, IsOrderOf, ControlPlaneTasks, ShippedBlocks,
           StatusOf, AllNames;
      items, added, dropped, counted := [], {}, {}, [];
      ghost var start := server.log;
      var ok := LookupOrGenerateSecrets(me, cluster, certOrder, caOrder);
      StillRunning(server, start, me);
      if !ok {
        return Requeue, items, added, dropped, counted;
      }
      ghost var complete := server.log;
      outcome, items, added, dropped := LookupOrCreateMachines(me, spec);
      if outcome == Done {
        outcome, counted := UpdateStatus(me);
        SecretsStay(server, complete);
      }
      StillRunning(server, start, me);
    }

    /** One reconcile. It goes past the gate only for a cluster that was ready with a host and a port, and for any
        other cluster that it reads it waits and does nothing; `view` is what it read. When it is done, every secret
        of the cluster is stored and the status counts the machines of a list. */
    method Reconcile(me: Pid, fetched: Fetched, certOrder: seq<string>, caOrder: seq<string>)
      returns (outcome: Outcome, ghost items: seq<MachineItem>, ghost added: set<Uid>, ghost dropped: set<Uid>,
               ghost counted: seq<MachineItem>, ghost view: Option<ClusterView>)
      requires server.Valid() && me !in server.sys.procs && server.cfg.tree == ShippedTreeNames()
      requires IsCertOrder(certOrder) && IsCAOrder(caOrder)
      modifies server
      ensures server.Valid() && old(server.log) <= server.log
      ensures me in server.sys.procs ==> (
                && fetched.Got? && view.Some? && view.value.infrastructureReady && IsControlPlane(server.sys, me)
                && var spec := server.sys.procs[me].actor.spec;
                   spec == view.value.spec && spec in server.sys.everOpen && spec.host != "" && spec.port != 0)
      ensures me !in server.sys.procs ==>
                && server.OthersActed(old(server.log), me) && (server.quiet ==> server.sys == old(server.sys))
      ensures fetched.Got? && view.None? ==> me !in server.sys.procs && outcome == Requeue
      ensures fetched.Got? && view.Some? &&
              (!view.value.infrastructureReady || view.value.spec.host == "" || view.value.spec.port == 0) ==>
                me !in server.sys.procs && outcome == Waiting
      ensures outcome == Done && fetched.Got? ==>
                && me in server.sys.procs && Todo(me) == []
                && AllNames(server.cfg.tree) <= server.sys.secrets.Keys
                && server.sys.status == Some(StatusOf(counted, server.cfg.kcp)) && Flagged(server.sys.status)
      ensures outcome == Done && fetched.Got? && server.quiet ==>
                Pass(server.cfg.kcp, old(server.sys.machines), server.sys.machines, items,
                     fetched.spec.replicas.GetOr(0), added, dropped, server.reliable)
      ensures outcome == Done && fetched.Got? && server.quiet && server.current ==>
                ListsMachines(items, old(server.sys.machines)) && ListsMachines(counted, server.sys.machines)
      ensures outcome == Panicked ==> fetched.Got? && fetched.spec.replicas.GetOr(0) < 0
      ensures !fetched.Got? ==> server.sys == old(server.sys) && outcome == if fetched.Gone? then Done else Requeue
      ensures fetched.Got? && server.quiet && server.current && old(server.sys.open) == None ==>
                server.sys == old(server.sys) && outcome in {Waiting, Requeue}
      ensures fetched.Got? && server.quiet && server.current && old(server.sys.open).Some? && server.reliable ==>
                me in server.sys.procs && IsControlPlane(server.sys, me) &&
                server.sys.procs[me].actor.spec == old(server.sys.open).value &&
                (outcome == Done <==> fetched.spec.replicas.GetOr(0) >= 0 || |items| > MAX)
    {
      hide Narrow, Run, WellFormed, Pass, ListsMachines, ShippedTreeNames, IsOrderOf, ControlPlaneTasks, ShippedBlocks,
           StatusOf, AllNames, Server.EndsWith;
      items, added, dropped, counted, view := [], {}, {}, [], None;
      if fetched.Gone? {
        outcome := Done;
        return;
      }
      if fetched.Unreadable? {
        outcome := Requeue;
        return;
      }
      var found := server.GetCluster(me);
      view := found;
      if found.None? {
        outcome := Requeue;
        return;
      }
      var cluster := found.value;
      if !cluster.infrastructureReady {
        outcome := Waiting;
        return;
      }
      if !HasEndpoint(cluster.spec) {
        outcome := Waiting;
        return;
      }
      ShippedBlocksAreAnOrder(certOrder, caOrder);
      server.StartControlPlane(me, ShippedBlocks(certOrder, caOrder), fetched.spec.replicas.GetOr(0), cluster.spec);
      outcome, items, added, dropped, counted := BringUp(me, fetched.spec, cluster.spec, certOrder, caOrder);
    }
  }

  /** Counts ready and other machines of one control plane, each in an int32. */
  method CountControlled(items: seq<MachineItem>, kcp: Uid) returns (status: ControlPlaneStatus)
    ensures status == StatusOf(items, kcp)
    ensures status.external && status.initialized == status.ready == (status.readyReplicas > 0)
  {
    var ready: int32, unavailable: int32 := 0, 0;
    for i := 0 to |items|
      invariant ready == Narrow(Controlled(items[..i], kcp, true))
      invariant unavailable == Narrow(Controlled(items[..i], kcp, false))
    {
      hide Narrow, Controlled;
      var it := items[i];
      assert items[..i + 1] == items[..i] + [it];
      ControlledAppend(items[..i], it, kcp, true);
      ControlledAppend(items[..i], it, kcp, false);
      NarrowStep(Controlled(items[..i], kcp, true));
      NarrowStep(Controlled(items[..i], kcp, false));
      if it.machine.controller != kcp {
        continue;
      }
      if it.machine.ready {
        ready := Narrow(ready + 1);
      } else {
        unavailable := Narrow(unavailable + 1);
      }
    }
    assert items[..|items|] == items;
    status := ControlPlaneStatus(ready, unavailable, false, false, true);
    if ready > 0 {
      status := status.(initialized := true, ready := true);
    }
  }

  lemma NoUids(items: seq<MachineItem>)
    requires items == []
    ensures UidsOf(items) == {}
  {
  }

  lemma {:induction false} ActorStays(cfg: Config, s: Sys, log: seq<Event>, p: Pid)
    requires p in s.procs
    ensures p in Run(cfg, s, log).procs && Run(cfg, s, log).procs[p].actor == s.procs[p].actor
  {
    if log != [] {
      ActorStays(cfg, s, log[..|log| - 1], p);
    }
  }

  // A reconcile of a control plane is still one, for the cluster that let it through the gate.
  lemma StillRunning(server: Server, earlier: seq<Event>, me: Pid)
    requires server.Valid() && earlier <= server.log && me in Run(server.cfg, InitialState(), earlier).procs
    ensures me in server.sys.procs
    ensures server.sys.procs[me].actor == Run(server.cfg, InitialState(), earlier).procs[me].actor
    ensures IsControlPlane(server.sys, me) ==> server.sys.procs[me].actor.spec in server.sys.everOpen
  {
    var more := server.log[|earlier|..];
    assert server.log == earlier + more;
    RunAppend(server.cfg, InitialState(), earlier, more);
    ActorStays(server.cfg, Run(server.cfg, InitialState(), earlier), more, me);
    server.StateIsSafe();
  }

  // All secrets stored once are all stored now.
  lemma SecretsStay(server: Server, earlier: seq<Event>)
    requires server.Valid() && earlier <= server.log
    requires AllNames(server.cfg.tree) <= Run(server.cfg, InitialState(), earlier).secrets.Keys
    ensures AllNames(server.cfg.tree) <= server.sys.secrets.Keys
  {
    forall n | n in AllNames(server.cfg.tree) ensures n in server.sys.secrets {
      StoredStays(server, earlier, n);
    }
  }

  lemma UidIsNew(server: Server)
    requires server.Valid()
    ensures server.sys.nextUid !in server.sys.machines
  {
    server.StateIsSafe();
  }

  // The items behind the kept ones, and one more of them.
  lemma TailGrows(items: seq<MachineItem>, i: nat)
    requires i < |items|
    ensures UidsOf(items[i..]) == UidsOf(items[i + 1..]) + {items[i].uid}
  {
    assert items[i..] == [items[i]] + items[i + 1..];
  }
}
