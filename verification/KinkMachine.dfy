/** The machine reconcile: pods, services, readiness. */
module KinkMachine {
  import opened Protocol
  import opened Safety
  import opened ApiServer
  import opened PodPasses

  datatype Outcome = Done | Requeue

  /** The variable of a `range` loop over pods. In Go 1.18 a loop has one such variable for all its rounds, and
      `&pod` is its address in every round. */
  class PodVariable {
    var item: PodItem

    constructor ()
    {
      item := PodItem(0, Pod(None, map[], "", [], Pending));
    }
  }

  /** A machine object in memory, with the part of its status that reconciles write. */
  class MachineObject {
    const uid: Uid
    var ready: bool
    var pods: seq<Uid>

    constructor (uid: Uid)
      ensures this.uid == uid
    {
      this.uid := uid;
    }
  }

  // The roles that label the listed pods a machine owns.
  function ListedRoles(items: seq<PodItem>, m: Uid): set<string> {
    set it | it in items && Owned(it.pod, m) && ROLE_LABEL in it.pod.labels :: it.pod.labels[ROLE_LABEL]
  }

  lemma ListedRolesAreOwned(items: seq<PodItem>, pods: map<Uid, Pod>, m: Uid)
    requires ListsPods(items, pods)
    ensures ListedRoles(items, m) == OwnedRoles(pods, m)
  {
    forall u | u in pods && Owned(pods[u], m) && ROLE_LABEL in pods[u].labels
      ensures pods[u].labels[ROLE_LABEL] in ListedRoles(items, m)
    {
      var it :| it in items && it.uid == u;
    }
  }

  /** The map from roles to pods has the roles of the machine's own listed pods as its keys, but every value is
      the last pod of the whole list, whatever its role and whoever owns it. */
  method IndexPods(items: seq<PodItem>, m: Uid) returns (podMap: map<string, PodVariable>)
    ensures podMap.Keys == ListedRoles(items, m)
    ensures forall r :: r in podMap <==>
                          exists it | it in items ::
                            it.pod.owner == Some(m) && "kink.openbce.io/role" in it.pod.labels &&
                            it.pod.labels["kink.openbce.io/role"] == r
    ensures forall r | r in podMap :: items != [] && podMap[r].item == items[|items| - 1]
  {
    podMap := map[];
    var pod := new PodVariable();
    for i := 0 to |items|
      invariant podMap.Keys == ListedRoles(items[..i], m)
      invariant i > 0 ==> pod.item == items[i - 1]
      invariant forall r | r in podMap :: i > 0 && podMap[r] == pod
    {
      assert items[..i + 1] == items[..i] + [items[i]];
      pod.item := items[i];
      if !Owned(pod.item.pod, m) {
        continue;
      }
      var role := RoleOf(pod.item.pod.labels);
      if role.None? {
        continue;
      }
      podMap := podMap[role.value := pod];
    }
    assert items[..|items|] == items;
  }

  // The roles of the services of a machine; what the loop maps them to is never read.
  method IndexServices(items: seq<ServiceItem>, m: Uid) returns (svcMap: set<string>)
    ensures forall r :: r in svcMap <==>
                          exists it | it in items ::
                            it.service.owner == m && "kink.openbce.io/role" in it.service.labels &&
                            it.service.labels["kink.openbce.io/role"] == r
  {
    svcMap := {};
    for i := 0 to |items|
      invariant forall r :: r in svcMap <==>
                              exists it | it in items[..i] ::
                                it.service.owner == m && RoleOf(it.service.labels) == Some(r)
    {
      assert items[..i + 1] == items[..i] + [items[i]];
      var svc := items[i].service;
      if svc.owner != m {
        continue;
      }
      var role := RoleOf(svc.labels);
      if role.None? {
        continue;
      }
      svcMap := svcMap + {role.value};
    }
    assert items[..|items|] == items;
  }

  // Whether the listed pods of a machine all run, looking no further than the first that does not.
  method ListedRunning(items: seq<PodItem>, ghost pods: map<Uid, Pod>, m: Uid) returns (ready: bool)
    requires ListsPods(items, pods)
    ensures ready <==> AllRunning(pods, m)
    ensures ready <==> forall u | u in pods && pods[u].owner == Some(m) :: pods[u].phase == Running
  {
    ready := true;
    for i := 0 to |items|
      invariant ready
      invariant forall j | 0 <= j < i :: Owned(items[j].pod, m) ==> items[j].pod.phase == Running
    {
      var pod := items[i].pod;
      if !Owned(pod, m) {
        continue;
      }
      if pod.phase != Running {
        ready := false;
        assert items[i] in items;
        break;
      }
    }
    if ready {
      forall u | u in pods && Owned(pods[u], m) ensures pods[u].phase == Running {
        var it :| it in items && it.uid == u;
      }
    }
  }

  class KinkMachineReconciler {
    const server: Server

    constructor (server: Server)
      ensures this.server == server
    {
      this.server := server;
    }

    ghost predicate Running(me: Pid)
      reads server
    {
      server.Valid() && IsMachine(server.sys, me)
    }

    ghost function Todo(me: Pid): seq<Task>
      requires me in server.sys.procs
      reads server
    {
      server.sys.procs[me].todo
    }

    // One call of the loop that creates what is missing.
    method CreateOne(me: Pid, role: string, ghost before: map<Uid, Pod>, ghost next: Uid, ghost made: seq<string>,
                     ghost rest: seq<Task>)
      returns (ok: bool, ghost more: seq<string>)
      requires Running(me) && Todo(me) == [MakePod(role)] + rest && role in server.cfg.table
      requires server.quiet ==> PassSoFar(before, server.sys.pods, next, server.sys.nextUid,
                                          server.sys.procs[me].actor.uid, server.cfg.table, made)
      modifies server
      ensures Running(me) && old(server.log) <= server.log
      ensures server.sys.procs[me].actor == old(server.sys.procs[me].actor)
      ensures ok ==> Todo(me) == rest
      ensures more == if ok then made + [role] else made
      ensures server.quiet ==> PassSoFar(before, server.sys.pods, next, server.sys.nextUid,
                                         server.sys.procs[me].actor.uid, server.cfg.table, more)
      ensures server.quiet ==> server.sys.machines == old(server.sys.machines)
      ensures server.reliable ==> ok
    {
      hide Run, WellFormed, PassSoFar;
      ghost var pods, uid, m := server.sys.pods, server.sys.nextUid, server.sys.procs[me].actor.uid;
      ok := server.CreatePod(me, role);
      more := made;
      if ok {
        if server.quiet {
          OneMoreMade(before, pods, next, uid, m, server.cfg.table, made, role);
        }
        more := made + [role];
      }
    }

    // The loop over the templates, in the order `order`.
    method CreateMissing(me: Pid, machine: MachineObject, order: seq<string>, podMap: map<string, PodVariable>,
                         ghost found: set<string>, ghost before: map<Uid, Pod>, ghost next: Uid,
                         ghost items: seq<PodItem>, ghost rest: seq<Task>)
      returns (ok: bool, ghost made: seq<string>)
      requires Running(me) && server.sys.procs[me].actor == MachineActor(machine.uid, order)
      requires Todo(me) == MakeTasks(order, found) + rest && IsRoleOrder(server.cfg.table, order)
      requires podMap.Keys == found && machine.pods == []
      requires forall r | r in podMap :: items != [] && podMap[r].item == items[|items| - 1]
      requires server.quiet ==> (
                 && found == OwnedRoles(before, machine.uid)
                 && PassSoFar(before, server.sys.pods, next, server.sys.nextUid, machine.uid, server.cfg.table, []))
      modifies server, machine
      ensures Running(me) && old(server.log) <= server.log
      ensures server.sys.procs[me].actor == MachineActor(machine.uid, order)
      ensures ok ==> Todo(me) == rest
      ensures server.quiet ==> PodPass(before, server.sys.pods, next, machine.uid, server.cfg.table, order, made, ok)
      ensures server.quiet ==> server.sys.nextUid == next + |made|
      ensures server.quiet ==> server.sys.machines == old(server.sys.machines)
      ensures ok ==> |machine.pods| + |made| == |order|
      ensures ok ==> forall ref | ref in machine.pods :: items != [] && ref == items[|items| - 1].uid
      ensures server.reliable ==> ok
    {
      hide Run, WellFormed, MakeTasks, Missing, OwnedRoles, IsRoleOrder, PodPass, PassSoFar;
      made := [];
      OrderIsInTable(server.cfg.table, order);
      MissingOfNothing(order, found);
      assert order[0..] == order;
      for i := 0 to |order|
        invariant Running(me) && old(server.log) <= server.log
        invariant server.sys.procs[me].actor == MachineActor(machine.uid, order)
        invariant Todo(me) == MakeTasks(order[i..], found) + rest
        invariant made == Missing(order[..i], found)
        invariant server.quiet ==> server.sys.machines == old(server.sys.machines)
        invariant server.quiet ==>
                    PassSoFar(before, server.sys.pods, next, server.sys.nextUid, machine.uid, server.cfg.table, made)
        invariant |machine.pods| + |made| == i
        invariant forall ref | ref in machine.pods :: items != [] && ref == items[|items| - 1].uid
        invariant forall r | r in podMap :: items != [] && podMap[r].item == items[|items| - 1]
      {
        MakesUnfold(order, found, rest, i);
        MissingNext(order, found, i);
        var role := order[i];
        if role in podMap {
          machine.pods := machine.pods + [podMap[role].item.uid];
          continue;
        }
        ok, made := CreateOne(me, role, before, next, made, MakeTasks(order[i + 1..], found) + rest);
        if !ok {
          if server.quiet {
            SoFarIsAPass(before, server.sys.pods, next, server.sys.nextUid, machine.uid, server.cfg.table, order, made,
                         i, false);
          }
          return;
        }
      }
      NoMoreMakes(order, found, rest);
      if server.quiet {
        SoFarIsAPass(before, server.sys.pods, next, server.sys.nextUid, machine.uid, server.cfg.table, order, made,
                     |order|, true);
      }
      ok := true;
    }

    /** Looks up the pods of the machine by role and creates one for every role that has none, up to the first
        failure. Roles that have one leave a reference in the status: all of them to the last pod listed. */
    method LookupOrSetupPods(me: Pid, machine: MachineObject, order: seq<string>)
      returns (ok: bool, ghost items: seq<PodItem>, ghost made: seq<string>)
      requires Running(me) && server.sys.procs[me].actor == MachineActor(machine.uid, order)
      requires Todo(me) == MachineTasks() && IsRoleOrder(server.cfg.table, order)
      modifies server, machine
      ensures Running(me) && old(server.log) <= server.log
      ensures server.sys.procs[me].actor == MachineActor(machine.uid, order)
      ensures ok ==> Todo(me) == [ListServices, CheckPods]
      ensures server.quiet ==> PodPass(old(server.sys.pods), server.sys.pods, old(server.sys.nextUid), machine.uid,
                                       server.cfg.table, order, made, ok)
      ensures server.quiet ==> server.sys.nextUid == old(server.sys.nextUid) + |made|
      ensures server.quiet ==> server.sys.machines == old(server.sys.machines)
      ensures server.quiet && ok ==> ListsPods(items, old(server.sys.pods))
      ensures ok ==> |machine.pods| + |made| == |order|
      ensures ok ==> forall ref | ref in machine.pods :: items != [] && ref == items[|items| - 1].uid
      ensures server.reliable ==> ok
    {
      hide Run, WellFormed, MakeTasks, Missing, Plus, OwnedRoles, ListedRoles, IsRoleOrder, PodPass, PassSoFar,
           ListsPods, Server.OthersActed, Server.EndsWith;
      items, made := [], [];
      ghost var before, next := server.sys.pods, server.sys.nextUid;
      ghost var rest := [ListServices, CheckPods];
      NothingSoFar(before, next, machine.uid, server.cfg.table, order[..0], OwnedRoles(before, machine.uid));
      var list := server.ListPods(me);
      if list.None? {
        SoFarIsAPass(before, before, next, next, machine.uid, server.cfg.table, order, [], 0, false);
        ok := false;
        return;
      }
      items := list.value;
      machine.pods := [];
      ghost var found := OwnedRoles(server.sys.pods, machine.uid);
      ListedRolesAreOwned(items, server.sys.pods, machine.uid);
      var podMap := IndexPods(list.value, machine.uid);
      assert MachineTasks()[1..] == rest;
      assert order[0..] == order;
      ok, made := CreateMissing(me, machine, order, podMap, found, before, next, items, rest);
    }

    /** Looks up the services of the machine and creates the etcd service if it owns none. A creation that fails
        is ignored, also when another machine owns the service. The references in the status are cleared. */
    method LookupOrSetupServices(me: Pid, machine: MachineObject) returns (ok: bool)
      requires Running(me) && server.sys.procs[me].actor.uid == machine.uid
      requires Todo(me) == [ListServices, CheckPods]
      modifies server, machine
      ensures Running(me) && old(server.log) <= server.log
      ensures server.sys.procs[me].actor == old(server.sys.procs[me].actor)
      ensures ok ==> Todo(me) == [CheckPods] && machine.pods == []
      ensures server.quiet ==> server.sys.pods == old(server.sys.pods)
      ensures server.quiet ==> server.sys.machines == old(server.sys.machines)
      ensures server.quiet ==> server.sys.nextUid == old(server.sys.nextUid)
      ensures server.reliable ==> ok && EtcdServiceName(server.cfg.cluster) in server.sys.services
      ensures server.quiet && EtcdServiceName(server.cfg.cluster) in old(server.sys.services) ==>
                server.sys.services == old(server.sys.services)
    {
      hide Run, WellFormed, Server.OthersActed, Server.EndsWith;
      var list := server.ListServices(me);
      if list.None? {
        ok := false;
        return;
      }
      machine.pods := [];
      OwnedServiceIsListed(list.value, server.sys.services, machine.uid);
      OwnedServiceIsTheEtcdService(server, machine.uid);
      var svcMap := IndexServices(list.value, machine.uid);
      assert [ListServices, CheckPods][1..] == [CheckPods];
      assert ([MakeService] + [CheckPods])[1..] == [CheckPods];
      if ETCD in svcMap {
        assert [] + [CheckPods] == [CheckPods];
      } else {
        var created := server.CreateService(me);
      }
      ok := true;
    }

    /** Stores the machine as ready when all pods it owns run. */
    method UpdateMachineStatus(me: Pid, machine: MachineObject) returns (ok: bool)
      requires Running(me) && server.sys.procs[me].actor.uid == machine.uid
      requires Todo(me) == [CheckPods]
      modifies server, machine`ready
      ensures server.Valid() && me in server.sys.procs && old(server.log) <= server.log
      ensures ok ==>
                && Todo(me) == [] && machine.uid in server.sys.machines
                && server.sys.machines[machine.uid].ready == machine.ready
                && server.log != [] && server.log[|server.log| - 1] == MachineWritten(me, machine.pods)
      ensures server.quiet ==> server.sys.pods == old(server.sys.pods) && server.sys.nextUid == old(server.sys.nextUid)
      ensures server.quiet ==> server.sys.services == old(server.sys.services)
      ensures server.quiet && ok ==> (
                var pods := server.sys.pods;
                machine.ready <==> forall u | u in pods && pods[u].owner == Some(machine.uid) :: pods[u].phase.Running?)
      ensures server.quiet && server.reliable ==> (ok <==> machine.uid in old(server.sys.machines))
    {
      hide Run, WellFormed, AllRunning, ListsPods, Server.OthersActed, Server.EndsWith;
      var list := server.CheckPods(me);
      if list.None? {
        ok := false;
        return;
      }
      machine.ready := ListedRunning(list.value, server.sys.pods, machine.uid);
      assert ([WriteMachine(machine.ready)] + [CheckPods][1..])[1..] == [];
      ok := server.UpdateMachineStatus(me, machine.ready, machine.pods);
    }

    // Both set-up steps, pods first.
    method LookupOrSetupControlPlane(me: Pid, machine: MachineObject, order: seq<string>)
      returns (ok: bool, ghost made: seq<string>, ghost all: bool)
      requires Running(me) && server.sys.procs[me].actor == MachineActor(machine.uid, order)
      requires Todo(me) == MachineTasks() && IsRoleOrder(server.cfg.table, order)
      modifies server, machine
      ensures Running(me) && old(server.log) <= server.log
      ensures server.sys.procs[me].actor == MachineActor(machine.uid, order)
      ensures ok ==> all && Todo(me) == [CheckPods] && machine.pods == []
      ensures server.quiet ==> PodPass(old(server.sys.pods), server.sys.pods, old(server.sys.nextUid), machine.uid,
                                       server.cfg.table, order, made, all)
      ensures server.quiet ==> server.sys.nextUid == old(server.sys.nextUid) + |made|
      ensures server.quiet ==> server.sys.machines == old(server.sys.machines)
      ensures server.quiet && server.reliable ==> ok && EtcdServiceName(server.cfg.cluster) in server.sys.services
    {
      hide Run, WellFormed, PodPass, IsRoleOrder, ListsPods, MachineTasks;
      ghost var items: seq<PodItem>;
      ok, items, made := LookupOrSetupPods(me, machine, order);
      all := ok;
      if ok {
        ok := LookupOrSetupServices(me, machine);
      }
    }

    /** One reconcile of machine `m`. What it stores has no pod references, and running alone it stores a
        readiness only after a complete pass, the one it reads off the pods it leaves. */
    method Reconcile(me: Pid, m: Uid, order: seq<string>)
      returns (outcome: Outcome, ghost made: seq<string>, ghost all: bool, ghost stored: Option<bool>)
      requires server.Valid() && me !in server.sys.procs && IsRoleOrder(server.cfg.table, order)
      modifies server
      ensures server.Valid() && old(server.log) <= server.log
      ensures outcome == Done && me in server.sys.procs <==> stored.Some?
      ensures stored.Some? ==>
                && Todo(me) == [] && m in server.sys.machines && server.sys.machines[m].ready == stored.value
                && server.log != [] && server.log[|server.log| - 1] == MachineWritten(me, [])
      ensures server.quiet && me in server.sys.procs ==>
                && PodPass(old(server.sys.pods), server.sys.pods, old(server.sys.nextUid), m, server.cfg.table, order,
                           made, all)
                && server.sys.nextUid == old(server.sys.nextUid) + |made|
                && (stored.Some? ==> all)
      ensures server.quiet && stored.Some? ==> (
                var pods := server.sys.pods;
                stored.value <==> forall u | u in pods && pods[u].owner == Some(m) :: pods[u].phase.Running?)
      ensures server.quiet && me !in server.sys.procs ==> server.sys == old(server.sys)
      ensures server.quiet && server.reliable && m in old(server.sys.machines) ==>
                stored.Some? && all && EtcdServiceName(server.cfg.cluster) in server.sys.services
    {
      hide Run, WellFormed, PodPass, AllRunning, IsRoleOrder, ListsPods, MachineTasks, OwnsEtcdService,
           Server.OthersActed, Server.EndsWith;
      made, all, stored, outcome := [], false, None, Done;
      var found := server.GetMachine(me, m);
      if found != Found {
        outcome := if found == NotFound then Done else Requeue;
        return;
      }
      var machine := new MachineObject(m);
      var cluster := server.GetCluster(me);
      if cluster.None? {
        outcome := Requeue;
        return;
      }
      server.StartMachine(me, m, order);
      var ok: bool;
      ok, made, all := LookupOrSetupControlPlane(me, machine, order);
      if ok {
        ok := UpdateMachineStatus(me, machine);
      }
      outcome := if ok then Done else Requeue;
      stored := if ok then Some(machine.ready) else None;
    }
  }

  lemma OwnedServiceIsListed(items: seq<ServiceItem>, services: map<string, Service>, m: Uid)
    requires ListsServices(items, services)
    ensures OwnsEtcdService(services, m) <==>
              exists it | it in items :: it.service.owner == m && RoleOf(it.service.labels) == Some(ETCD)
  {
    if OwnsEtcdService(services, m) {
      var n :| n in services && services[n].owner == m && RoleOf(services[n].labels) == Some(ETCD);
      var it :| it in items && it.name == n;
    }
  }

  lemma OwnedServiceIsTheEtcdService(server: Server, m: Uid)
    requires server.Valid()
    ensures OwnsEtcdService(server.sys.services, m) ==> EtcdServiceName(server.cfg.cluster) in server.sys.services
  {
    server.StateIsSafe();
  }
}
