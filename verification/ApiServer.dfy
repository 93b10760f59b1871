/** The API server as a client library shows it: one method per call.

    Before every call any number of other events may happen, except those of the calling reconcile; any call
    may fail; a read of a secret, and a list of machines, may be stale. Each method is the one event it
    stands for, so a reconcile that calls them in the order of its task list is a run of the protocol. */
module ApiServer {
  import opened Int32
  import opened Protocol
  import opened Safety
  import opened CertificateHistory

  datatype Lookup = Found | NotFound | Failed

  datatype PodItem = PodItem(uid: Uid, pod: Pod)

  datatype ServiceItem = ServiceItem(name: string, service: Service)

  // What a Get of the cluster shows.
  datatype ClusterView = ClusterView(infrastructureReady: bool, spec: ClusterSpec)

  predicate DistinctUids(items: seq<MachineItem>) {
    forall i, j | 0 <= i < j < |items| :: items[i].uid != items[j].uid
  }

  // A list of exactly the stored machines, each once, in some order.
  predicate ListsMachines(items: seq<MachineItem>, machines: map<Uid, Machine>) {
    && DistinctUids(items)
    && (forall it | it in items :: it.uid in machines && it.machine == machines[it.uid])
    && (forall m | m in machines :: exists it | it in items :: it.uid == m)
  }

  predicate ListsPods(items: seq<PodItem>, pods: map<Uid, Pod>) {
    && (forall it | it in items :: it.uid in pods && it.pod == pods[it.uid])
    && (forall u | u in pods :: exists it | it in items :: it.uid == u)
  }

  predicate ListsServices(items: seq<ServiceItem>, services: map<string, Service>) {
    && (forall it | it in items :: it.name in services && it.service == services[it.name])
    && (forall n | n in services :: exists it | it in items :: it.name == n)
  }

  // What the creation of a secret stores, and what its reconcile knows of it.
  lemma SecretStored(cfg: Config, s: Sys, p: Pid)
    requires Enabled(cfg, s, SecretCreated(p))
    ensures var t, pr, s' := Current(s, p), s.procs[p], Apply(cfg, s, SecretCreated(p));
            && p in s'.procs && NameOf(t) in s'.secrets && NameOf(t) in s'.writtenBy && s'.machines == s.machines
            && s'.procs[p] == Proc(pr.actor, pr.todo[1..], pr.done + {NameOf(t)}, pr.keys, false)
            && s'.secrets[NameOf(t)] == Content(t, pr.keys, s.nextKey, PutNames(cfg.lib, t, pr.actor))
            && s'.writtenBy[NameOf(t)] == p
  {
    assert [] + s.procs[p].todo[1..] == s.procs[p].todo[1..];
  }

  class Server {
    const cfg: Config
    const quiet: bool     // nothing else happens while a reconcile runs
    const current: bool   // what is read is what is stored
    const reliable: bool  // no call fails unless the stored objects make it fail
    var sys: Sys
    ghost var log: seq<Event>

    ghost predicate Valid()
      reads this
    {
      WellFormed(cfg) && sys == Run(cfg, InitialState(), log)
    }

    constructor (cfg: Config, quiet: bool, current: bool, reliable: bool)
      requires WellFormed(cfg)
      ensures Valid() && this.cfg == cfg && sys == InitialState() && log == []
      ensures this.quiet == quiet && this.current == current && this.reliable == reliable
    {
      this.cfg, this.quiet, this.current, this.reliable := cfg, quiet, current, reliable;
      sys, log := InitialState(), [];
    }

    lemma StateIsSafe()
      requires Valid()
      ensures Safe(cfg, sys)
    {
      EveryRunIsSafe(cfg, log);
    }

    lemma KeysDiffer()
      requires Valid()
      ensures forall a, b | a in sys.secrets && b in sys.secrets && a != b :: sys.secrets[a].key != sys.secrets[b].key
    {
      StateIsSafe();
      KeysAreApart(cfg, sys);
    }

    method Commit(e: Event)
      requires Valid() && Enabled(cfg, sys, e)
      modifies this
      ensures Valid() && log == old(log) + [e] && sys == Apply(cfg, old(sys), e)
    {
      sys, log := Apply(cfg, sys, e), log + [e];
      assert log[..|log| - 1] == old(log);
    }

    // Since `before`, only others have acted.
    ghost predicate OthersActed(before: seq<Event>, me: Pid)
      reads this
    {
      before <= log && forall i | |before| <= i < |log| :: By(log[i]) != Some(me)
    }

    // Since `before`, others have acted, and then event `e` happened.
    ghost predicate EndsWith(before: seq<Event>, me: Pid, e: Event)
      reads this
    {
      && before <= log && |before| < |log| && log[|log| - 1] == e
      && forall i | |before| <= i < |log| - 1 :: By(log[i]) != Some(me)
    }

    // Any number of events of anyone but `me`.
    method Interfere(me: Pid)
      requires Valid()
      modifies this
      ensures Valid() && OthersActed(old(log), me)
      ensures me in sys.procs <==> me in old(sys.procs)
      ensures me in sys.procs ==> sys.procs[me] == old(sys.procs[me])
      ensures old(sys.services).Keys <= sys.services.Keys && old(sys.secrets).Keys <= sys.secrets.Keys
      ensures old(sys.nextUid) <= sys.nextUid
      ensures old(sys.everOpen) <= sys.everOpen && old(sys.born).Keys <= sys.born.Keys
      ensures quiet ==> sys == old(sys)
    {
      var budget: nat := *;
      while budget > 0 && !quiet
        invariant Valid() && OthersActed(old(log), me)
        invariant old(sys.services).Keys <= sys.services.Keys && old(sys.secrets).Keys <= sys.secrets.Keys
        invariant old(sys.nextUid) <= sys.nextUid
        invariant me in sys.procs <==> me in old(sys.procs)
        invariant me in sys.procs ==> sys.procs[me] == old(sys.procs[me])
        invariant old(sys.everOpen) <= sys.everOpen && old(sys.born).Keys <= sys.born.Keys
        invariant quiet ==> sys == old(sys)
      {
        var e: Event := *;
        if Enabled(cfg, sys, e) && By(e) != Some(me) {
          Commit(e);
        }
        budget := budget - 1;
      }
    }

    method MayFail() returns (failed: bool)
      ensures reliable ==> !failed
    {
      failed := *;
      failed := failed && !reliable;
    }

    // --- Calls of a control-plane reconcile ---------------------------------------------------------------

    method GetCluster(me: Pid) returns (view: Option<ClusterView>)
      requires Valid()
      modifies this
      ensures Valid() && OthersActed(old(log), me)
      ensures me in sys.procs <==> me in old(sys.procs)
      ensures reliable ==> view.Some?
      ensures old(sys.born).Keys <= sys.born.Keys
      ensures view.Some? && view.value.infrastructureReady && view.value.spec.host != "" &&
              view.value.spec.port != 0 ==>
                view.value.spec in sys.everOpen
      ensures current && view.Some? ==>
                (view.value.infrastructureReady && view.value.spec.host != "" && view.value.spec.port != 0
                 <==> sys.open.Some?)
      ensures current && view.Some? && sys.open.Some? ==> view.value.spec == sys.open.value
      ensures quiet ==> sys == old(sys)
    {
      Interfere(me);
      OpenWasOpen(cfg, log);
      var failed := MayFail();
      if failed {
        return None;
      }
      var v: ClusterView := *;
      if current && sys.open.Some? {
        v := ClusterView(true, sys.open.value);
      } else if v.infrastructureReady && HasEndpoint(v.spec) && (current || v.spec !in sys.everOpen) {
        v := v.(infrastructureReady := false);
      }
      view := Some(v);
    }

    method StartControlPlane(me: Pid, blocks: seq<Block>, replicas: int32, spec: ClusterSpec)
      requires Valid() && me !in sys.procs && spec in sys.everOpen && IsOrderOf(cfg.tree, blocks)
      modifies this
      ensures Valid() && EndsWith(old(log), me, Event.StartControlPlane(me, blocks, replicas, spec))
      ensures me in sys.procs
      ensures sys.procs[me] == Proc(ControlPlaneActor(replicas, spec), ControlPlaneTasks(blocks), {}, map[], false)
      ensures sys.machines == old(sys.machines)
    {
      Commit(Event.StartControlPlane(me, blocks, replicas, spec));
    }

    method GenerateCA(me: Pid, ca: string) returns (ok: bool)
      requires Valid() && At(sys, me) && Current(sys, me) == NewCA(ca)
      modifies this
      ensures Valid() && old(log) <= log && me in sys.procs
      ensures !ok ==> sys.procs[me] == old(sys.procs[me])
      ensures ok ==> (
                var pr, pr' := old(sys.procs[me]), sys.procs[me];
                EndsWith(old(log), me, CAGenerated(me)) && ca in pr'.keys &&
                pr' == Proc(pr.actor, pr.todo[1..], pr.done, pr.keys[ca := pr'.keys[ca]], false))
      ensures !ok ==> OthersActed(old(log), me)
      ensures quiet ==> sys.machines == old(sys.machines)
      ensures reliable ==> ok
    {
      Interfere(me);
      var failed := MayFail();
      if failed {
        return false;
      }
      Commit(CAGenerated(me));
      assert [] + old(sys.procs[me]).todo[1..] == old(sys.procs[me]).todo[1..];
      ok := true;
    }

    method GetSecret(me: Pid, name: string) returns (r: Lookup)
      requires Valid() && At(sys, me) && IsPut(Current(sys, me)) && name == NameOf(Current(sys, me))
      requires !sys.procs[me].missing
      modifies this
      ensures Valid() && old(log) <= log && me in sys.procs
      ensures r == Failed ==> sys.procs[me] == old(sys.procs[me]) && OthersActed(old(log), me)
      ensures r == NotFound ==> sys.procs[me] == old(sys.procs[me]).(missing := true)
      ensures r != Failed ==> EndsWith(old(log), me, if r == Found then SecretFound(me) else SecretMissing(me))
      ensures r == Found ==> (
                var pr := old(sys.procs[me]);
                name in sys.secrets &&
                sys.procs[me] == Proc(pr.actor, pr.todo[1..], pr.done + {name}, pr.keys, false))
      ensures current && r == NotFound ==> name !in sys.secrets
      ensures old(sys.secrets).Keys <= sys.secrets.Keys
      ensures quiet ==> sys.machines == old(sys.machines)
      ensures reliable ==> r != Failed
    {
      Interfere(me);
      var failed := MayFail();
      var stale: bool := *;
      assert [] + old(sys.procs[me]).todo[1..] == old(sys.procs[me]).todo[1..];
      if failed {
        r := Failed;
      } else if name in sys.secrets && (current || !stale) {
        Commit(SecretFound(me));
        r := Found;
      } else {
        Commit(SecretMissing(me));
        r := NotFound;
      }
    }

    // `names` are the alternative names of the certificate in the secret.
    method CreateSecret(me: Pid, name: string, names: AltNames) returns (ok: bool)
      requires Valid() && At(sys, me) && IsPut(Current(sys, me)) && name == NameOf(Current(sys, me))
      requires sys.procs[me].missing && HoldsKey(Current(sys, me), sys.procs[me].keys)
      requires names == PutNames(cfg.lib, Current(sys, me), sys.procs[me].actor)
      modifies this
      ensures Valid() && old(log) <= log && me in sys.procs
      ensures !ok ==> sys.procs[me] == old(sys.procs[me]) && OthersActed(old(log), me)
      ensures name in old(sys.secrets) ==> !ok
      ensures ok ==> EndsWith(old(log), me, SecretCreated(me))
      ensures ok ==> (
                var pr := old(sys.procs[me]);
                name in sys.secrets && sys.secrets[name].names == names &&
                name in sys.writtenBy && sys.writtenBy[name] == me &&
                sys.procs[me] == Proc(pr.actor, pr.todo[1..], pr.done + {name}, pr.keys, false))
      ensures ok ==> (
                var t, keys, secret := old(Current(sys, me)), old(sys.procs[me]).keys, sys.secrets[name];
                match t
                case PutCA(ca) => secret.key == keys[ca] && secret.signer == keys[ca]
                case PutLeaf(_, ca) => secret.signer == keys[ca]
                case _ => true)
      ensures ok ==> forall n | n in sys.secrets && n != name :: sys.secrets[n].key != sys.secrets[name].key
      ensures quiet ==> sys.machines == old(sys.machines)
      ensures quiet && reliable && name !in old(sys.secrets) ==> ok
    {
      hide Run, WellFormed, Safe, Apply, PutNames;
      Interfere(me);
      var failed := MayFail();
      if failed || name in sys.secrets {
        return false;  // already there: someone else was faster, or the read was stale
      }
      SecretStored(cfg, sys, me);
      Commit(SecretCreated(me));
      ok := true;
      KeysDiffer();
    }

    // A read that is no Get of a put: what it finds is stored.
    method ReadSecret(me: Pid, name: string) returns (r: Option<Secret>)
      requires Valid()
      modifies this
      ensures Valid() && OthersActed(old(log), me)
      ensures me in sys.procs <==> me in old(sys.procs)
      ensures me in sys.procs ==> sys.procs[me] == old(sys.procs[me])
      ensures r.Some? ==> name in sys.secrets && r.value == sys.secrets[name]
      ensures quiet ==> sys == old(sys)
      ensures reliable && current && name in old(sys.secrets) ==> r.Some?
    {
      Interfere(me);
      var failed := MayFail();
      var stale: bool := *;
      r := if failed || name !in sys.secrets || (stale && !current) then None else Some(sys.secrets[name]);
    }

    // The stored machines, each once, in whatever order the server likes.
    method CurrentMachines() returns (items: seq<MachineItem>)
      requires Valid()
      ensures ListsMachines(items, sys.machines)
    {
      items := [];
      var rest := sys.machines.Keys;
      while rest != {}
        invariant rest <= sys.machines.Keys && DistinctUids(items)
        invariant forall it | it in items ::
                  it.uid in sys.machines && it.machine == sys.machines[it.uid] && it.uid !in rest
        invariant forall m | m in sys.machines :: m in rest || exists it | it in items :: it.uid == m
      {
        var m :| m in rest;
        var it := MachineItem(m, sys.machines[m]);
        ghost var before := items;
        items := items + [it];
        assert it in items;
        assert forall x | x in before :: x in items;
        rest := rest - {m};
      }
    }

    lemma CurrentIsSeen(items: seq<MachineItem>)
      requires Valid() && ListsMachines(items, sys.machines)
      ensures forall it | it in items :: Seen(sys, it)
    {
      StateIsSafe();
    }

    method SomeMachineList() returns (items: seq<MachineItem>)
      requires Valid()
      ensures DistinctUids(items) && forall it | it in items :: Seen(sys, it)
      ensures current ==> ListsMachines(items, sys.machines)
    {
      items := *;
      if current || !DistinctUids(items) || !(forall it | it in items :: Seen(sys, it)) {
        items := CurrentMachines();
        CurrentIsSeen(items);
      }
    }

    method ListMachines(me: Pid) returns (items: Option<seq<MachineItem>>)
      requires Valid() && At(sys, me) && Current(sys, me) == Task.ListMachines && IsControlPlane(sys, me)
      modifies this
      ensures Valid() && old(log) <= log && me in sys.procs
      ensures items.None? ==> sys.procs[me] == old(sys.procs[me]) && OthersActed(old(log), me)
      ensures items.Some? ==> EndsWith(old(log), me, MachinesListed(me, items.value))
      ensures items.Some? ==> forall it | it in items.value :: Seen(sys, it)
      ensures items.Some? ==> (
                var pr := old(sys.procs[me]);
                DistinctUids(items.value) &&
                sys.procs[me].todo == ScaleTasks(items.value, pr.actor.replicas) + pr.todo[1..] &&
                sys.procs[me].actor == pr.actor)
      ensures quiet ==> sys.machines == old(sys.machines) && sys.nextUid == old(sys.nextUid)
      ensures current && items.Some? ==> ListsMachines(items.value, sys.machines)
      ensures reliable ==> items.Some?
    {
      Interfere(me);
      var failed := MayFail();
      if failed {
        return None;
      }
      var list := SomeMachineList();
      Commit(MachinesListed(me, list));
      items := Some(list);
    }

    method CreateMachine(me: Pid) returns (ok: bool)
      requires Valid() && At(sys, me) && Current(sys, me) == AddMachine
      modifies this
      ensures Valid() && old(log) <= log && me in sys.procs
      ensures sys.procs[me].todo == old(sys.procs[me]).todo[1..] && sys.procs[me].actor == old(sys.procs[me]).actor
      ensures EndsWith(old(log), me, if ok then MachineAdded(me) else CallFailed(me))
      ensures ok ==> (
                var m := sys.nextUid - 1;
                old(sys.nextUid) <= m && m in sys.machines && sys.machines[m] == Machine(cfg.kcp, false, []))
      ensures quiet ==> (
                var m := old(sys.nextUid);
                if ok then sys.machines == old(sys.machines)[m := Machine(cfg.kcp, false, [])] && sys.nextUid == m + 1
                else sys.machines == old(sys.machines) && sys.nextUid == m)
      ensures reliable ==> ok
    {
      Interfere(me);
      assert [] + old(sys.procs[me]).todo[1..] == old(sys.procs[me]).todo[1..];
      var failed := MayFail();
      Commit(if failed then CallFailed(me) else MachineAdded(me));
      ok := !failed;
    }

    method DeleteMachine(me: Pid, victim: Uid) returns (ok: bool)
      requires Valid() && At(sys, me) && Current(sys, me) == DropMachine(victim)
      modifies this
      ensures Valid() && old(log) <= log && me in sys.procs
      ensures sys.procs[me].todo == old(sys.procs[me]).todo[1..] && sys.procs[me].actor == old(sys.procs[me]).actor
      ensures EndsWith(old(log), me, if ok then MachineDropped(me) else CallFailed(me))
      ensures ok ==> victim !in sys.machines
      ensures quiet ==> sys.machines == if ok then old(sys.machines) - {victim} else old(sys.machines)
      ensures quiet && ok ==> victim in old(sys.machines)
      ensures quiet && reliable ==> (ok <==> victim in old(sys.machines))
    {
      Interfere(me);
      assert [] + old(sys.procs[me]).todo[1..] == old(sys.procs[me]).todo[1..];
      var failed := MayFail();
      ok := !failed && victim in sys.machines;
      Commit(if ok then MachineDropped(me) else CallFailed(me));
    }

    method CountMachines(me: Pid) returns (items: Option<seq<MachineItem>>)
      requires Valid() && At(sys, me) && Current(sys, me) == Task.CountMachines
      modifies this
      ensures Valid() && old(log) <= log && me in sys.procs
      ensures items.None? ==> sys.procs[me] == old(sys.procs[me]) && OthersActed(old(log), me)
      ensures items.Some? ==> EndsWith(old(log), me, MachinesCounted(me, items.value))
      ensures items.Some? ==> forall it | it in items.value :: Seen(sys, it)
      ensures items.Some? ==> (
                var pr := old(sys.procs[me]);
                DistinctUids(items.value) &&
                sys.procs[me].todo == [WriteControlPlane(StatusOf(items.value, cfg.kcp))] + pr.todo[1..])
      ensures quiet ==> sys.machines == old(sys.machines)
      ensures current && items.Some? ==> ListsMachines(items.value, sys.machines)
      ensures reliable ==> items.Some?
    {
      Interfere(me);
      var failed := MayFail();
      if failed {
        return None;
      }
      var list := SomeMachineList();
      Commit(MachinesCounted(me, list));
      items := Some(list);
    }

    method UpdateControlPlaneStatus(me: Pid, status: ControlPlaneStatus) returns (ok: bool)
      requires Valid() && At(sys, me) && Current(sys, me) == WriteControlPlane(status)
      modifies this
      ensures Valid() && old(log) <= log && me in sys.procs
      ensures ok ==> sys.status == Some(status) && sys.procs[me].todo == old(sys.procs[me]).todo[1..]
      ensures ok ==> EndsWith(old(log), me, ControlPlaneWritten(me))
      ensures !ok ==> OthersActed(old(log), me) && sys.procs[me] == old(sys.procs[me])
      ensures quiet ==> sys.machines == old(sys.machines)
      ensures quiet && !ok ==> sys == old(sys)
      ensures reliable ==> ok
    {
      Interfere(me);
      assert [] + old(sys.procs[me]).todo[1..] == old(sys.procs[me]).todo[1..];
      var failed := MayFail();
      if failed {
        return false;
      }
      Commit(ControlPlaneWritten(me));
      ok := true;
    }

    // --- Calls of a machine reconcile ---------------------------------------------------------------------

    method GetMachine(me: Pid, m: Uid) returns (r: Lookup)
      requires Valid() && me !in sys.procs
      modifies this
      ensures Valid() && old(log) <= log && me !in sys.procs
      ensures r == Found ==> m in sys.born
      ensures quiet ==> sys == old(sys)
      ensures quiet && reliable ==> (m in sys.machines ==> r == Found)
    {
      Interfere(me);
      StateIsSafe();
      var failed := MayFail();
      var stale: bool := *;
      if failed {
        r := Failed;
      } else if m in sys.machines || (m in sys.born && stale) {
        r := Found;
      } else {
        r := NotFound;
      }
    }

    method StartMachine(me: Pid, m: Uid, order: seq<string>)
      requires Valid() && me !in sys.procs && m in sys.born && IsRoleOrder(cfg.table, order)
      modifies this
      ensures Valid() && old(log) <= log && me in sys.procs
      ensures sys.procs[me] == Proc(MachineActor(m, order), MachineTasks(), {}, map[], false)
      ensures sys.machines == old(sys.machines) && sys.pods == old(sys.pods) && sys.nextUid == old(sys.nextUid)
    {
      Commit(Event.StartMachine(me, m, order));
    }

    method CurrentPods() returns (items: seq<PodItem>)
      ensures ListsPods(items, sys.pods)
    {
      items := [];
      var rest := sys.pods.Keys;
      while rest != {}
        invariant rest <= sys.pods.Keys
        invariant forall it | it in items :: it.uid in sys.pods && it.pod == sys.pods[it.uid]
        invariant forall u | u in sys.pods :: u in rest || exists it | it in items :: it.uid == u
      {
        var u :| u in rest;
        var it := PodItem(u, sys.pods[u]);
        ghost var before := items;
        items := items + [it];
        assert it in items;
        assert forall x | x in before :: x in items;
        rest := rest - {u};
      }
    }

    method ListPods(me: Pid) returns (items: Option<seq<PodItem>>)
      requires Valid() && At(sys, me) && Current(sys, me) == Task.ListPods && IsMachine(sys, me)
      modifies this
      ensures Valid() && old(log) <= log && me in sys.procs
      ensures items.None? ==> sys.procs[me] == old(sys.procs[me]) && OthersActed(old(log), me)
      ensures items.Some? ==> EndsWith(old(log), me, PodsListed(me))
      ensures items.Some? ==> (
                var pr := old(sys.procs[me]);
                var found := OwnedRoles(sys.pods, pr.actor.uid);
                ListsPods(items.value, sys.pods) &&
                sys.procs[me].todo == MakeTasks(pr.actor.order, found) + pr.todo[1..] &&
                sys.procs[me].actor == pr.actor)
      ensures quiet ==> sys.pods == old(sys.pods) && sys.machines == old(sys.machines)
      ensures quiet ==> sys.nextUid == old(sys.nextUid)
      ensures reliable ==> items.Some?
    {
      Interfere(me);
      var failed := MayFail();
      if failed {
        return None;
      }
      var list := CurrentPods();
      Commit(PodsListed(me));
      items := Some(list);
    }

    method CreatePod(me: Pid, role: string) returns (ok: bool)
      requires Valid() && At(sys, me) && Current(sys, me) == MakePod(role) && IsMachine(sys, me) && role in cfg.table
      modifies this
      ensures Valid() && old(log) <= log && me in sys.procs
      ensures sys.procs[me].actor == old(sys.procs[me]).actor
      ensures sys.procs[me].todo == if ok then old(sys.procs[me]).todo[1..] else old(sys.procs[me]).todo
      ensures if ok then EndsWith(old(log), me, PodMade(me)) else OthersActed(old(log), me)
      ensures ok ==> (
                var u, t, m := sys.nextUid - 1, cfg.table[role], old(sys.procs[me]).actor.uid;
                old(sys.nextUid) <= u && u in sys.pods &&
                sys.pods[u] == Pod(Some(m), t.labels, t.image, t.mounts, Pending))
      ensures quiet ==> sys.machines == old(sys.machines)
      ensures quiet ==> (
                var u, m := old(sys.nextUid), old(sys.procs[me]).actor.uid;
                sys.pods == (if ok then old(sys.pods)[u := FromTemplate(m, cfg.table[role])] else old(sys.pods)) &&
                sys.nextUid == if ok then u + 1 else u)
      ensures reliable ==> ok
    {
      Interfere(me);
      assert [] + old(sys.procs[me]).todo[1..] == old(sys.procs[me]).todo[1..];
      var failed := MayFail();
      if failed {
        return false;
      }
      Commit(PodMade(me));
      ok := true;
    }

    method CurrentServices() returns (items: seq<ServiceItem>)
      ensures ListsServices(items, sys.services)
    {
      items := [];
      var rest := sys.services.Keys;
      while rest != {}
        invariant rest <= sys.services.Keys
        invariant forall it | it in items :: it.name in sys.services && it.service == sys.services[it.name]
        invariant forall n | n in sys.services :: n in rest || exists it | it in items :: it.name == n
      {
        var n :| n in rest;
        var it := ServiceItem(n, sys.services[n]);
        ghost var before := items;
        items := items + [it];
        assert it in items;
        assert forall x | x in before :: x in items;
        rest := rest - {n};
      }
    }

    method ListServices(me: Pid) returns (items: Option<seq<ServiceItem>>)
      requires Valid() && At(sys, me) && Current(sys, me) == Task.ListServices && IsMachine(sys, me)
      modifies this
      ensures Valid() && old(log) <= log && me in sys.procs
      ensures quiet ==> sys.nextUid == old(sys.nextUid)
      ensures items.None? ==> sys.procs[me] == old(sys.procs[me]) && OthersActed(old(log), me)
      ensures items.Some? ==> EndsWith(old(log), me, ServicesListed(me))
      ensures items.Some? ==> (
                var pr := old(sys.procs[me]);
                ListsServices(items.value, sys.services) && sys.procs[me].actor == pr.actor &&
                sys.procs[me].todo
                == (if OwnsEtcdService(sys.services, pr.actor.uid) then [] else [MakeService]) + pr.todo[1..])
      ensures quiet ==> sys.pods == old(sys.pods) && sys.machines == old(sys.machines)
      ensures quiet ==> sys.services == old(sys.services)
      ensures reliable ==> items.Some?
    {
      Interfere(me);
      var failed := MayFail();
      if failed {
        return None;
      }
      var list := CurrentServices();
      Commit(ServicesListed(me));
      items := Some(list);
    }

    method CreateService(me: Pid) returns (ok: bool)
      requires Valid() && At(sys, me) && Current(sys, me) == MakeService && IsMachine(sys, me)
      modifies this
      ensures Valid() && old(log) <= log && me in sys.procs
      ensures quiet ==> sys.nextUid == old(sys.nextUid)
      ensures sys.procs[me].todo == old(sys.procs[me]).todo[1..] && sys.procs[me].actor == old(sys.procs[me]).actor
      ensures EndsWith(old(log), me, if ok then ServiceMade(me) else CallFailed(me))
      ensures EtcdServiceName(cfg.cluster) in old(sys.services) ==> !ok
      ensures ok ==> (
                var name := EtcdServiceName(cfg.cluster);
                name in sys.services && sys.services[name].owner == old(sys.procs[me]).actor.uid &&
                sys.services[name] == EtcdService(cfg.cluster, old(sys.procs[me]).actor.uid))
      ensures EtcdServiceName(cfg.cluster) in old(sys.services) && quiet ==> sys.services == old(sys.services)
      ensures ok || reliable ==> EtcdServiceName(cfg.cluster) in sys.services
      ensures quiet ==> sys.pods == old(sys.pods) && sys.machines == old(sys.machines)
    {
      Interfere(me);
      assert [] + old(sys.procs[me]).todo[1..] == old(sys.procs[me]).todo[1..];
      var failed := MayFail();
      ok := !failed && EtcdServiceName(cfg.cluster) !in sys.services;
      Commit(if ok then ServiceMade(me) else CallFailed(me));
    }

    method CheckPods(me: Pid) returns (items: Option<seq<PodItem>>)
      requires Valid() && At(sys, me) && Current(sys, me) == Task.CheckPods && IsMachine(sys, me)
      modifies this
      ensures Valid() && old(log) <= log && me in sys.procs
      ensures quiet ==> sys.nextUid == old(sys.nextUid)
      ensures items.None? ==> sys.procs[me] == old(sys.procs[me]) && OthersActed(old(log), me)
      ensures items.Some? ==> EndsWith(old(log), me, PodsChecked(me))
      ensures quiet ==> sys.services == old(sys.services)
      ensures items.Some? ==> (
                var pr := old(sys.procs[me]);
                ListsPods(items.value, sys.pods) && sys.procs[me].actor == pr.actor &&
                sys.procs[me].todo == [WriteMachine(AllRunning(sys.pods, pr.actor.uid))] + pr.todo[1..])
      ensures quiet ==> sys.pods == old(sys.pods) && sys.machines == old(sys.machines)
      ensures reliable ==> items.Some?
    {
      Interfere(me);
      var failed := MayFail();
      if failed {
        return None;
      }
      var list := CurrentPods();
      Commit(PodsChecked(me));
      items := Some(list);
    }

    method UpdateMachineStatus(me: Pid, ready: bool, refs: seq<Uid>) returns (ok: bool)
      requires Valid() && At(sys, me) && Current(sys, me) == WriteMachine(ready) && IsMachine(sys, me)
      modifies this
      ensures Valid() && old(log) <= log && me in sys.procs
      ensures quiet ==> sys.nextUid == old(sys.nextUid)
      ensures ok ==> (
                var m := old(sys.procs[me]).actor.uid;
                m in sys.machines && sys.machines[m].ready == ready && sys.machines[m].pods == refs &&
                sys.procs[me].todo == old(sys.procs[me]).todo[1..])
      ensures if ok then EndsWith(old(log), me, MachineWritten(me, refs)) else OthersActed(old(log), me)
      ensures ok ==> log != [] && log[|log| - 1] == MachineWritten(me, refs)
      ensures sys.procs[me].actor == old(sys.procs[me]).actor
      ensures quiet ==> sys.pods == old(sys.pods) && sys.services == old(sys.services)
      ensures quiet && reliable ==> (ok <==> old(sys.procs[me]).actor.uid in old(sys.machines))
      ensures quiet && !ok ==> sys.machines == old(sys.machines)
    {
      Interfere(me);
      assert [] + old(sys.procs[me]).todo[1..] == old(sys.procs[me]).todo[1..];
      var failed := MayFail();
      if failed || sys.procs[me].actor.uid !in sys.machines {
        return false;
      }
      Commit(MachineWritten(me, refs));
      ok := true;
    }
  }
}
