/** Runs that bring a cluster up: a machine of the control plane behind all its secrets, and a control plane that
    is stored as ready once one of its machines is. */
module OwnMachine {
  import opened Collections
  import opened Protocol
  import opened Safety
  import opened Readiness
  import opened CertificateHistory
  import opened CutRun

  // Some invocation that has not started yet.
  lemma NewPid(some: set<Pid>) returns (p: Pid)
    ensures p !in some && forall q | q in some :: q < p
  {
    if some == {} {
      p := 0;
    } else {
      var q :| q in some;
      var r := NewPid(some - {q});
      p := if q < r then r else q + 1;
      assert forall x | x in some :: x == q || x in some - {q};
    }
  }

  lemma AnOrder(keys: set<string>) returns (order: seq<string>)
    ensures (set t | t in order) == keys && NoRepeats(order)
  {
    if keys == {} {
      order := [];
    } else {
      var t :| t in keys;
      var rest := AnOrder(keys - {t});
      order := StartingWith(t, rest, keys);
    }
  }

  lemma StartingWith(t: string, rest: seq<string>, keys: set<string>) returns (order: seq<string>)
    requires t in keys && (set r | r in rest) == keys - {t} && NoRepeats(rest)
    ensures order == [t] + rest && (set r | r in order) == keys && NoRepeats(order)
  {
    order := [t] + rest;
    var all, others := set r | r in order, set r | r in rest;
    assert forall r :: r in rest <==> r in others;
    forall r ensures r in all <==> r in keys {
      assert r in order <==> r == t || r in rest;
      assert r in all <==> r in order;
    }
    forall i, j | 0 <= i < j < |order| ensures order[i] != order[j] {
      assert order[j] in rest && order[j] in others;
    }
  }

  // Some order of a tree.
  lemma SomeBlocks(tree: map<string, set<string>>, cas: seq<string>) returns (blocks: seq<Block>)
    requires (forall c | c in cas :: c in tree) && NoRepeats(cas)
    ensures |blocks| == |cas| && forall i | 0 <= i < |cas| ::
              blocks[i].ca == cas[i] && (set l | l in blocks[i].leaves) == tree[cas[i]]
  {
    if cas == [] {
      blocks := [];
    } else {
      var n := |cas| - 1;
      var rest := SomeBlocks(tree, cas[..n]);
      var leaves := AnOrder(tree[cas[n]]);
      blocks := rest + [Block(cas[n], leaves)];
    }
  }

  lemma ABlockOrder(tree: map<string, set<string>>) returns (blocks: seq<Block>)
    ensures IsOrderOf(tree, blocks)
  {
    var cas := AnOrder(tree.Keys);
    assert forall c :: c in cas <==> c in (set t | t in cas);
    blocks := SomeBlocks(tree, cas);
    forall b | b in blocks ensures b.ca in tree && (set l | l in b.leaves) == tree[b.ca] {
      var i :| 0 <= i < |blocks| && blocks[i] == b;
    }
    forall c | c in tree ensures exists b | b in blocks :: b.ca == c {
      var i :| 0 <= i < |cas| && cas[i] == c;
      assert blocks[i] in blocks;
    }
  }

  lemma MachineListStep(cfg: Config, s: Sys, p: Pid, items: seq<MachineItem>)
    requires p in s.procs && s.procs[p].actor.ControlPlaneActor?
    requires s.procs[p].todo == [ListMachines, CountMachines] && forall it | it in items :: Seen(s, it)
    ensures var t := Next(cfg, s, MachinesListed(p, items));
            && RestStays(s, t) && t.everReady == s.everReady && t.secrets == s.secrets && p in t.procs
            && t.procs[p].todo == ScaleTasks(items, s.procs[p].actor.replicas) + [CountMachines]
            && t.procs[p].actor == s.procs[p].actor
  {
    assert [ListMachines, CountMachines][1..] == [CountMachines];
    assert Enabled(cfg, s, MachinesListed(p, items));
    assert Next(cfg, s, MachinesListed(p, items)).procs[p] == ProcAfter(cfg, s, MachinesListed(p, items));
  }

  lemma AddStep(cfg: Config, s: Sys, p: Pid)
    requires At(s, p) && Current(s, p).AddMachine?
    ensures var t := Next(cfg, s, MachineAdded(p));
            && t.machines == s.machines[s.nextUid := Machine(cfg.kcp, false, [])]
            && t.born == s.born[s.nextUid := cfg.kcp]
            && t.pods == s.pods && t.secrets == s.secrets && t.procs.Keys == s.procs.Keys
            && forall q | q in s.procs :: t.procs[q].actor == s.procs[q].actor
  {
    assert Enabled(cfg, s, MachineAdded(p));
  }

  // No reconcile is for a machine that does not exist yet.
  lemma NobodyKnowsTheNext(cfg: Config, log: seq<Event>)
    requires WellFormed(cfg)
    ensures var s := Run(cfg, InitialState(), log);
            forall p | p in s.procs && IsMachine(s, p) :: s.procs[p].actor.uid != s.nextUid
  {
    EveryRunIsSafe(cfg, log);
  }

  lemma FirstOpen(cfg: Config, spec: ClusterSpec)
    requires HasEndpoint(spec)
    ensures var s := Run(cfg, InitialState(), [ClusterReady(spec)]);
            s.everOpen == {spec} && s.machines == map[] && s.pods == map[] && s.procs == map[]
  {
    hide Run;
    RunNext(cfg, InitialState(), [], ClusterReady(spec));
    Start(cfg);
    assert [] + [ClusterReady(spec)] == [ClusterReady(spec)];
  }

  /** A run without a failure or a stale read in which the control plane makes a machine, its first, with all
      secrets stored before. */
  lemma AnOwnMachine(cfg: Config) returns (log: seq<Event>, m: Uid)
    requires WellFormed(cfg)
    ensures var s := Run(cfg, InitialState(), log);
            && m in s.machines && s.machines.Keys == {m} && m in s.born && s.born[m] == cfg.kcp
            && s.secrets.Keys == AllNames(cfg.tree) && s.pods == map[] && !s.machines[m].ready
            && forall p | p in s.procs && IsMachine(s, p) :: s.procs[p].actor.uid != m
  {
    hide Run, WellFormed, AllNames, IsOrderOf, Next, AddTasks;
    var spec := ClusterSpec([], "", "host", 6443);
    var init, first := InitialState(), [ClusterReady(spec)];
    FirstOpen(cfg, spec);
    var blocks := ABlockOrder(cfg.tree);
    var solo := OneMoreCompletes(cfg, first, 0, blocks, 1, spec);
    var a := Run(cfg, init, first + solo);
    CompletedOnceFixedForever(cfg, first + solo, 0, []);
    MachineListStep(cfg, a, 0, []);
    OneToAdd();
    RunNext(cfg, init, first + solo, MachinesListed(0, []));
    var b := Run(cfg, init, first + solo + [MachinesListed(0, [])]);
    AddStep(cfg, b, 0);
    NobodyKnowsTheNext(cfg, first + solo + [MachinesListed(0, [])]);
    RunNext(cfg, init, first + solo + [MachinesListed(0, [])], MachineAdded(0));
    log := first + solo + [MachinesListed(0, [])] + [MachineAdded(0)];
    m := b.nextUid;
  }

  lemma OneToAdd()
    ensures ScaleTasks([], 1) + [CountMachines] == [AddMachine, CountMachines]
  {
    assert AddTasks(1) == [AddMachine] + AddTasks(0);
  }

  lemma NoneToAdd(it: MachineItem)
    ensures ScaleTasks([it], 1) + [CountMachines] == [CountMachines]
  {
    assert DropTasks([it], 0) == [];
  }

  lemma CountStep(cfg: Config, s: Sys, p: Pid, items: seq<MachineItem>)
    requires p in s.procs && s.procs[p].todo == [CountMachines] && forall it | it in items :: Seen(s, it)
    ensures var t := Next(cfg, s, MachinesCounted(p, items));
            p in t.procs && t.procs[p].todo == [WriteControlPlane(StatusOf(items, cfg.kcp))]
  {
    hide StatusOf;
    assert Enabled(cfg, s, MachinesCounted(p, items));
    assert Next(cfg, s, MachinesCounted(p, items)).procs[p] == ProcAfter(cfg, s, MachinesCounted(p, items));
    assert [WriteControlPlane(StatusOf(items, cfg.kcp))] + [CountMachines][1..]
        == [WriteControlPlane(StatusOf(items, cfg.kcp))];
  }

  lemma WriteStep(cfg: Config, s: Sys, p: Pid)
    requires At(s, p) && Current(s, p).WriteControlPlane?
    ensures Next(cfg, s, ControlPlaneWritten(p)).status == Some(Current(s, p).status)
  {
    assert Enabled(cfg, s, ControlPlaneWritten(p));
  }

  lemma OneReadyMachine(it: MachineItem, kcp: Uid)
    requires it.machine.controller == kcp && it.machine.ready
    ensures StatusOf([it], kcp).ready
  {
    assert [it][1..] == [];
    assert Controlled([it][1..], kcp, true) == 0;
  }

  lemma StoredIsSeen(cfg: Config, log: seq<Event>, m: Uid)
    requires WellFormed(cfg) && m in Run(cfg, InitialState(), log).machines
    ensures var s := Run(cfg, InitialState(), log);
            && m in s.born && s.machines[m].controller == s.born[m]
            && Seen(s, MachineItem(m, s.machines[m]))
            && (s.born[m] == cfg.kcp ==> s.everOpen != {})
  {
    EveryRunIsSafe(cfg, log);
  }

  lemma SeenStays(s: Sys, t: Sys, it: MachineItem)
    requires Seen(s, it) && t.born == s.born && t.everReady == s.everReady
    ensures Seen(t, it)
  {
  }

  /** From any state in which a machine of the control plane is stored as ready, one more reconcile of the control
      plane can store the control plane as ready. */
  lemma ControlPlaneBecomesReady(cfg: Config, log: seq<Event>, m: Uid) returns (more: seq<Event>)
    requires WellFormed(cfg) && StoredReady(cfg, log, m)
    requires m in Run(cfg, InitialState(), log).born && Run(cfg, InitialState(), log).born[m] == cfg.kcp
    ensures ControlPlaneReady(cfg, log + more)
  {
    hide Run, WellFormed, IsOrderOf, Next, ScaleTasks, StatusOf, AllNames;
    var init, s := InitialState(), Run(cfg, InitialState(), log);
    StoredIsSeen(cfg, log, m);
    var p := NewPid(s.procs.Keys);
    var blocks := ABlockOrder(cfg.tree);
    var spec :| spec in s.everOpen;
    var solo := OneMoreCompletes(cfg, log, p, blocks, 1, spec);
    var a := Run(cfg, init, log + solo);
    StoredIsSeen(cfg, log + solo, m);
    var it := MachineItem(m, a.machines[m]);
    MachineListStep(cfg, a, p, [it]);
    NoneToAdd(it);
    RunNext(cfg, init, log + solo, MachinesListed(p, [it]));
    var b := Run(cfg, init, log + solo + [MachinesListed(p, [it])]);
    SeenStays(a, b, it);
    CountStep(cfg, b, p, [it]);
    RunNext(cfg, init, log + solo + [MachinesListed(p, [it])], MachinesCounted(p, [it]));
    var c := Run(cfg, init, log + solo + [MachinesListed(p, [it])] + [MachinesCounted(p, [it])]);
    WriteStep(cfg, c, p);
    OneReadyMachine(it, cfg.kcp);
    RunNext(cfg, init, log + solo + [MachinesListed(p, [it])] + [MachinesCounted(p, [it])], ControlPlaneWritten(p));
    more := solo + [MachinesListed(p, [it])] + [MachinesCounted(p, [it])] + [ControlPlaneWritten(p)];
    assert log + more
        == log + solo + [MachinesListed(p, [it])] + [MachinesCounted(p, [it])] + [ControlPlaneWritten(p)];
  }
}
