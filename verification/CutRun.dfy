/** A history that leaves a leaf and its CA apart for ever: one reconcile stops between writing a CA and writing
    its first leaf, a second one runs without any failure. */
module CutRun {
  import opened Int32
  import opened Protocol
  import opened Typing
  import opened Safety
  import opened CertificateHistory

  // The first reconcile, up to the point where it stops.
  function CutShort(blocks: seq<Block>, replicas: int32, spec: ClusterSpec): seq<Event> {
    [ClusterReady(spec), StartControlPlane(0, blocks, replicas, spec),
     CAGenerated(0), SecretMissing(0), SecretCreated(0)]
  }

  // The state after the first two, three, four and five events of the cut history.
  lemma Opened(cfg: Config, blocks: seq<Block>, replicas: int32, spec: ClusterSpec)
    requires IsOrderOf(cfg.tree, blocks) && HasEndpoint(spec)
    ensures var s := Run(cfg, InitialState(), CutShort(blocks, replicas, spec)[..2]);
            && s.everOpen == {spec} && s.secrets == map[] && s.writtenBy == map[] && s.procs.Keys == {0}
            && s.procs[0] == Proc(ControlPlaneActor(replicas, spec), ControlPlaneTasks(blocks), {}, map[], false)
  {
    hide Run, IsOrderOf, ControlPlaneTasks;
    var log := CutShort(blocks, replicas, spec);
    assert log[..2] == [] + [log[0]] + [log[1]];
    Start(cfg);
    RunNext(cfg, InitialState(), [], log[0]);
    RunNext(cfg, InitialState(), [] + [log[0]], log[1]);
  }

  lemma Start(cfg: Config)
    ensures Run(cfg, InitialState(), []) == InitialState()
  {
  }

  lemma FirstTasks(blocks: seq<Block>)
    requires blocks != []
    ensures |ControlPlaneTasks(blocks)| >= 2
    ensures ControlPlaneTasks(blocks)[0] == NewCA(blocks[0].ca)
    ensures ControlPlaneTasks(blocks)[1] == PutCA(blocks[0].ca)
  {
  }

  // One reconcile, alone, at its first CA: three calls later that CA is all that is stored.
  lemma FirstCAWritten(cfg: Config, s: Sys, p: Pid, ca: string)
    requires s.secrets == map[] && s.writtenBy == map[] && p in s.procs && |s.procs[p].todo| >= 2
    requires s.procs[p].todo[0] == NewCA(ca) && s.procs[p].todo[1] == PutCA(ca)
    ensures var t := Next(cfg, Next(cfg, Next(cfg, s, CAGenerated(p)), SecretMissing(p)), SecretCreated(p));
            && t.secrets.Keys == {ca} && t.writtenBy == map[ca := p]
            && t.everOpen == s.everOpen && t.procs.Keys == s.procs.Keys
  {
    var a := Next(cfg, s, CAGenerated(p));
    var todo := s.procs[p].todo;
    assert Enabled(cfg, s, CAGenerated(p));
    assert [] + todo[1..] == todo[1..] && todo[1..][0] == PutCA(ca);
    assert a.procs[p].todo == todo[1..] && ca in a.procs[p].keys && !a.procs[p].missing;
    assert a.secrets == map[] && a.writtenBy == map[];
    CreateAfterMiss(cfg, a, p, ca);
  }

  lemma CreateAfterMiss(cfg: Config, s: Sys, p: Pid, ca: string)
    requires s.secrets == map[] && s.writtenBy == map[]
    requires At(s, p) && Current(s, p) == PutCA(ca) && ca in s.procs[p].keys && !s.procs[p].missing
    ensures var t := Next(cfg, Next(cfg, s, SecretMissing(p)), SecretCreated(p));
            && t.secrets.Keys == {ca} && t.writtenBy == map[ca := p]
            && t.everOpen == s.everOpen && t.procs.Keys == s.procs.Keys
  {
    var b := Next(cfg, s, SecretMissing(p));
    assert b.procs[p] == s.procs[p].(missing := true);
    assert Enabled(cfg, b, SecretCreated(p));
  }

  lemma CutShortOutcome(cfg: Config, blocks: seq<Block>, replicas: int32, spec: ClusterSpec)
    requires IsOrderOf(cfg.tree, blocks) && blocks != [] && HasEndpoint(spec)
    ensures var s := Run(cfg, InitialState(), CutShort(blocks, replicas, spec));
            && s.secrets.Keys == {blocks[0].ca} && s.writtenBy == map[blocks[0].ca := 0]
            && s.everOpen == {spec} && s.procs.Keys == {0}
  {
    hide Run, Next, IsOrderOf, ControlPlaneTasks;
    var log, init := CutShort(blocks, replicas, spec), InitialState();
    Opened(cfg, blocks, replicas, spec);
    FirstTasks(blocks);
    FirstCAWritten(cfg, Run(cfg, init, log[..2]), 0, blocks[0].ca);
    RunNext(cfg, init, log[..2], log[2]);
    RunNext(cfg, init, log[..2] + [log[2]], log[3]);
    RunNext(cfg, init, log[..2] + [log[2]] + [log[3]], log[4]);
    assert log == log[..2] + [log[2]] + [log[3]] + [log[4]];
  }

  lemma {:induction false} LeavesAreCertificateTasks(ca: string, leaves: seq<string>)
    ensures AllCertificateTasks(LeafTasks(ca, leaves))
  {
    if leaves != [] {
      LeavesAreCertificateTasks(ca, leaves[1..]);
    }
  }

  lemma {:induction false} TreeIsCertificateTasks(order: seq<Block>)
    ensures AllCertificateTasks(TreeTasks(order))
  {
    if order != [] {
      LeavesAreCertificateTasks(order[0].ca, order[0].leaves);
      TreeIsCertificateTasks(order[1..]);
    }
  }

  /** From any reachable state of a cluster that was once ready, one more reconcile can start and, by its own
      calls alone, get past its certificates, leaving all else as it was. */
  lemma OneMoreCompletes(cfg: Config, log: seq<Event>, p: Pid, blocks: seq<Block>, replicas: int32, spec: ClusterSpec)
    returns (solo: seq<Event>)
    requires WellFormed(cfg) && IsOrderOf(cfg.tree, blocks)
    requires spec in Run(cfg, InitialState(), log).everOpen && p !in Run(cfg, InitialState(), log).procs
    ensures AllBy(solo, p) && PastCertificates(cfg, Run(cfg, InitialState(), log + solo), p)
    ensures RestStays(Run(cfg, InitialState(), log), Run(cfg, InitialState(), log + solo))
    ensures var t := Run(cfg, InitialState(), log + solo);
            t.procs[p].actor == ControlPlaneActor(replicas, spec) && t.procs[p].todo == [ListMachines, CountMachines]
  {
    hide Run, WellFormed, IsOrderOf, TreeTasks, Safe, Next, GotPast;
    var s, start := Run(cfg, InitialState(), log), StartControlPlane(p, blocks, replicas, spec);
    EveryRunIsSafe(cfg, log);
    NextKeepsSafe(cfg, s, start);
    RunNext(cfg, InitialState(), log, start);
    var tasks, rest := TreeTasks(blocks) + [PutSA, PutKubeconfig], [ListMachines, CountMachines];
    TreeIsCertificateTasks(blocks);
    assert ControlPlaneTasks(blocks) == tasks + rest;
    Started(cfg, s, p, blocks, replicas, spec);
    var later := LeftAloneItCompletes(cfg, Next(cfg, s, start), p, tasks, rest);
    solo := [start] + later;
    assert log + solo == log + [start] + later;
    RunAppend(cfg, InitialState(), log + [start], later);
    PastAtListing(cfg, Next(cfg, s, start), Run(cfg, InitialState(), log + solo), p, tasks);
  }

  lemma Started(cfg: Config, s: Sys, p: Pid, blocks: seq<Block>, replicas: int32, spec: ClusterSpec)
    requires spec in s.everOpen && p !in s.procs && IsOrderOf(cfg.tree, blocks)
    ensures var t := Next(cfg, s, StartControlPlane(p, blocks, replicas, spec));
            && p in t.procs
            && t.procs[p] == Proc(ControlPlaneActor(replicas, spec), ControlPlaneTasks(blocks), {}, map[], false)
            && RestStays(s, t)
  {
  }

  // Where a reconcile is about to list machines, it knows all secrets.
  lemma PastAtListing(cfg: Config, s: Sys, t: Sys, p: Pid, tasks: seq<Task>)
    requires Safe(cfg, t) && GotPast(s, t, p, tasks, [ListMachines, CountMachines])
    ensures PastCertificates(cfg, t, p)
    ensures t.procs[p].actor == s.procs[p].actor && t.procs[p].todo == [ListMachines, CountMachines]
  {
    assert Typed(cfg, t.procs[p]);
  }

  /** The history exists for every tree whose first CA has a leaf: the second reconcile completes, and yet that
      leaf is never signed by the stored CA, whatever runs afterwards. */
  lemma CutRunHappens(cfg: Config, blocks: seq<Block>, replicas: int32, spec: ClusterSpec) returns (log: seq<Event>)
    requires HasEndpoint(spec)
    requires WellFormed(cfg) && IsOrderOf(cfg.tree, blocks) && blocks != [] && blocks[0].leaves != []
    ensures CutShort(blocks, replicas, spec) <= log && PastCertificates(cfg, Run(cfg, InitialState(), log), 1)
    ensures forall more :: !Coherent(Run(cfg, InitialState(), log + more), blocks[0].ca, blocks[0].leaves[0])
  {
    hide Run, WellFormed, Coherent, PastCertificates;
    var cut, ca, leaf := CutShort(blocks, replicas, spec), blocks[0].ca, blocks[0].leaves[0];
    CutShortOutcome(cfg, blocks, replicas, spec);
    var solo := OneMoreCompletes(cfg, cut, 1, blocks, replicas, spec);
    log := cut + solo;
    FirstLeafIsALeaf(cfg, blocks);
    CutRunIsNeverRepaired(cfg, cut, solo, ca, leaf);
    assert leaf in Run(cfg, InitialState(), log).secrets by {
      CompletedOnceFixedForever(cfg, log, 1, []);
    }
    forall more ensures !Coherent(Run(cfg, InitialState(), log + more), ca, leaf) {
      CoherenceIsSettled(cfg, log, more, ca, leaf);
    }
  }

  lemma FirstLeafIsALeaf(cfg: Config, blocks: seq<Block>)
    requires WellFormed(cfg) && IsOrderOf(cfg.tree, blocks) && blocks != [] && blocks[0].leaves != []
    ensures blocks[0].ca in cfg.tree && blocks[0].leaves[0] in cfg.tree[blocks[0].ca]
    ensures blocks[0].leaves[0] != blocks[0].ca && blocks[0].leaves[0] in AllNames(cfg.tree)
  {
    var b, leaf := blocks[0], blocks[0].leaves[0];
    assert b in blocks && leaf in (set l | l in b.leaves);
    assert b.ca in cfg.tree && leaf in cfg.tree[b.ca];
    assert leaf in LeafNames(cfg.tree);
  }
}
