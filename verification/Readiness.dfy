/** What a stored "ready" means, from a control plane's status back to the pods of a machine. */
module Readiness {
  import opened Int32
  import opened Protocol
  import opened Typing
  import opened Safety

  // Every template is labelled with the role it is listed under.
  predicate RoleCoherent(table: map<string, PodTemplate>) {
    forall t | t in table :: RoleOf(table[t].labels) == Some(t)
  }

  predicate Covers(pods: map<Uid, Pod>, m: Uid, role: string) {
    exists u | u in pods :: Owned(pods[u], m) && RoleOf(pods[u].labels) == Some(role)
  }

  // Every role of the table has a pod of this machine, and every pod of this machine runs.
  predicate FullyRunning(cfg: Config, s: Sys, m: Uid) {
    && AllRunning(s.pods, m)
    && forall t | t in cfg.table :: Covers(s.pods, m, t)
  }

  // What a machine reconcile believes to be covered is covered.
  ghost predicate RolesCovered(s: Sys) {
    forall p, t | p in s.procs && IsMachine(s, p) && t in s.procs[p].done :: Covers(s.pods, s.procs[p].actor.uid, t)
  }

  lemma PodsStay(cfg: Config, s: Sys, e: Event, m: Uid, role: string)
    requires PodsBelong(cfg, s) && Enabled(cfg, s, e) && Covers(s.pods, m, role)
    ensures Covers(Apply(cfg, s, e).pods, m, role)
  {
    var u :| u in s.pods && Owned(s.pods[u], m) && RoleOf(s.pods[u].labels) == Some(role);
    var pods' := PodsAfter(cfg, s, e);
    assert u in pods' && pods'[u].owner == s.pods[u].owner && pods'[u].labels == s.pods[u].labels;
  }

  lemma OwnedRolesCovered(pods: map<Uid, Pod>, m: Uid, role: string)
    requires role in OwnedRoles(pods, m)
    ensures Covers(pods, m, role)
  {
    var u :| u in pods && Owned(pods[u], m) && ROLE_LABEL in pods[u].labels && pods[u].labels[ROLE_LABEL] == role;
  }

  lemma TaughtRolesCovered(cfg: Config, s: Sys, e: Event, role: string)
    requires RoleCoherent(cfg.table) && AllTyped(cfg, s) && Enabled(cfg, s, e)
    requires By(e).Some? && IsMachine(s, e.p) && role in Taught(cfg, s, e)
    ensures Covers(Apply(cfg, s, e).pods, s.procs[e.p].actor.uid, role)
  {
    var m := s.procs[e.p].actor.uid;
    assert Typed(cfg, s.procs[e.p]);
    if e.PodsListed? {
      OwnedRolesCovered(s.pods, m, role);
      assert Apply(cfg, s, e).pods == s.pods;
    } else if e.PodMade? {
      var pods' := PodsAfter(cfg, s, e);
      assert s.nextUid in pods' && Owned(pods'[s.nextUid], m);
      assert RoleOf(pods'[s.nextUid].labels) == Some(role);
    }
  }

  lemma StepKeepsRolesCovered(cfg: Config, s: Sys, e: Event)
    requires RoleCoherent(cfg.table) && AllTyped(cfg, s) && PodsBelong(cfg, s) && RolesCovered(s) && Enabled(cfg, s, e)
    ensures RolesCovered(Apply(cfg, s, e))
  {
    var s' := Apply(cfg, s, e);
    forall q, t | q in s'.procs && IsMachine(s', q) && t in s'.procs[q].done
      ensures Covers(s'.pods, s'.procs[q].actor.uid, t)
    {
      if q in s.procs {
        DoneFrame(cfg, s, e, q);
        if t in s.procs[q].done {
          PodsStay(cfg, s, e, s.procs[q].actor.uid, t);
        } else {
          TaughtRolesCovered(cfg, s, e, t);
        }
      }
    }
  }

  lemma DoneFrame(cfg: Config, s: Sys, e: Event, q: Pid)
    requires Enabled(cfg, s, e) && q in s.procs
    ensures q in Apply(cfg, s, e).procs && Apply(cfg, s, e).procs[q].actor == s.procs[q].actor
    ensures Apply(cfg, s, e).procs[q].done <=
            s.procs[q].done + if By(e) == Some(q) then Taught(cfg, s, e) else {}
  {
  }

  ghost predicate Sincere(cfg: Config, s: Sys) {
    Safe(cfg, s) && RolesCovered(s)
  }

  lemma {:induction false} EveryRunIsSincere(cfg: Config, log: seq<Event>)
    requires WellFormed(cfg) && RoleCoherent(cfg.table)
    ensures Sincere(cfg, Run(cfg, InitialState(), log))
  {
    if log != [] {
      var early := Run(cfg, InitialState(), log[..|log| - 1]);
      EveryRunIsSincere(cfg, log[..|log| - 1]);
      NextKeepsSafe(cfg, early, log[|log| - 1]);
      if Enabled(cfg, early, log[|log| - 1]) {
        StepKeepsRolesCovered(cfg, early, log[|log| - 1]);
      }
    }
  }

  // --- Where a verdict comes from -------------------------------------------------------------------------

  // Only the events that reach a verdict put one in front of a reconcile.
  predicate Verdict(t: Task) {
    t.WriteMachine? || t.WriteControlPlane?
  }

  lemma {:induction false} NoVerdictInLeaves(ca: string, leaves: seq<string>, i: nat)
    requires i < |LeafTasks(ca, leaves)|
    ensures !Verdict(LeafTasks(ca, leaves)[i])
  {
    if i > 0 {
      NoVerdictInLeaves(ca, leaves[1..], i - 1);
    }
  }

  lemma {:induction false} NoVerdictInTree(order: seq<Block>, i: nat)
    requires i < |TreeTasks(order)|
    ensures !Verdict(TreeTasks(order)[i])
  {
    var b := order[0];
    var n := |LeafTasks(b.ca, b.leaves)|;
    if 2 <= i < 2 + n {
      NoVerdictInLeaves(b.ca, b.leaves, i - 2);
    } else if 2 + n <= i {
      NoVerdictInTree(order[1..], i - 2 - n);
    }
  }

  lemma {:induction false} NoVerdictInAdds(n: nat, i: nat)
    requires i < |AddTasks(n)|
    ensures !Verdict(AddTasks(n)[i])
  {
    if i > 0 {
      NoVerdictInAdds(n - 1, i - 1);
    }
  }

  lemma {:induction false} NoVerdictInDrops(items: seq<MachineItem>, n: nat, i: nat)
    requires i < |DropTasks(items, n)|
    ensures !Verdict(DropTasks(items, n)[i])
  {
    if i > 0 {
      NoVerdictInDrops(items[..|items| - 1], n - 1, i - 1);
    }
  }

  lemma {:induction false} NoVerdictInMakes(order: seq<string>, found: set<string>, i: nat)
    requires i < |MakeTasks(order, found)|
    ensures !Verdict(MakeTasks(order, found)[i])
  {
    if order[0] in found {
      NoVerdictInMakes(order[1..], found, i);
    } else if i > 0 {
      NoVerdictInMakes(order[1..], found, i - 1);
    }
  }

  lemma StartedWithoutVerdict(cfg: Config, s: Sys, e: Event, i: nat)
    requires e.StartControlPlane? || e.StartMachine?
    requires Enabled(cfg, s, e) && i < |ProcAfter(cfg, s, e).todo|
    ensures !Verdict(ProcAfter(cfg, s, e).todo[i])
  {
    if e.StartControlPlane? {
      if i < |TreeTasks(e.blocks)| {
        NoVerdictInTree(e.blocks, i);
      }
    }
  }

  // Event e is the one by which reconcile p reaches verdict t.
  predicate Reaches(cfg: Config, s: Sys, e: Event, p: Pid, t: Task) {
    && Enabled(cfg, s, e) && By(e) == Some(p) && p in s.procs
    && match e
       case PodsChecked(_) => t == WriteMachine(AllRunning(s.pods, s.procs[p].actor.uid))
       case MachinesCounted(_, items) => t == WriteControlPlane(StatusOf(items, cfg.kcp))
       case _ => false
  }

  lemma UnfoldedVerdict(cfg: Config, s: Sys, e: Event, k: nat)
    requires Enabled(cfg, s, e) && By(e).Some? && e.p in s.procs
    requires k < |Unfolded(cfg, s, e)| && Verdict(Unfolded(cfg, s, e)[k])
    ensures Reaches(cfg, s, e, e.p, Unfolded(cfg, s, e)[k])
  {
    var a := s.procs[e.p].actor;
    match e
    case MachinesListed(_, items) =>
      var listed := Narrow(|items|);
      if listed < a.replicas {
        NoVerdictInAdds(a.replicas - listed, k);
      } else {
        NoVerdictInDrops(items, listed - a.replicas, k);
      }
    case PodsListed(_) => NoVerdictInMakes(a.order, OwnedRoles(s.pods, a.uid), k);
    case _ =>
  }

  // A verdict a reconcile holds after an event was reached by that event, or held before.
  lemma VerdictStep(cfg: Config, s: Sys, e: Event, p: Pid, k: nat) returns (k': nat)
    requires p in Next(cfg, s, e).procs && k < |Next(cfg, s, e).procs[p].todo|
    requires Verdict(Next(cfg, s, e).procs[p].todo[k])
    ensures p in s.procs && s.procs[p].actor == Next(cfg, s, e).procs[p].actor
    ensures var t := Next(cfg, s, e).procs[p].todo[k];
            Reaches(cfg, s, e, p, t) || (k' < |s.procs[p].todo| && s.procs[p].todo[k'] == t)
  {
    hide AllRunning, StatusOf, OwnedRoles, MakeTasks, ScaleTasks, ControlPlaneTasks;
    k' := k;
    if Enabled(cfg, s, e) && By(e) == Some(p) {
      if e.StartControlPlane? || e.StartMachine? {
        StartedWithoutVerdict(cfg, s, e, k);
      } else if !e.SecretMissing? {
        var n := |Unfolded(cfg, s, e)|;
        if k < n {
          UnfoldedVerdict(cfg, s, e, k);
        } else {
          k' := k - n + 1;
        }
      }
    }
  }

  // Every verdict of every run was reached by an event of its own reconcile.
  lemma {:induction false} VerdictWasReached(cfg: Config, log: seq<Event>, p: Pid, k: nat) returns (i: nat)
    requires var s := Run(cfg, InitialState(), log);
             p in s.procs && k < |s.procs[p].todo| && Verdict(s.procs[p].todo[k])
    ensures i < |log| && p in Run(cfg, InitialState(), log[..i]).procs
    ensures var s, t := Run(cfg, InitialState(), log[..i]), Run(cfg, InitialState(), log);
            Reaches(cfg, s, log[i], p, t.procs[p].todo[k]) && s.procs[p].actor == t.procs[p].actor
  {
    hide Next, Reaches, Verdict;
    var n := |log| - 1;
    var early := Run(cfg, InitialState(), log[..n]);
    var k' := VerdictStep(cfg, early, log[n], p, k);
    if Reaches(cfg, early, log[n], p, Run(cfg, InitialState(), log).procs[p].todo[k]) {
      i := n;
    } else {
      i := VerdictWasReached(cfg, log[..n], p, k');
      assert log[..n][..i] == log[..i] && log[..n][i] == log[i];
    }
  }

  // --- Every write and its own check ----------------------------------------------------------------------

  lemma CheckKnowsAllRoles(cfg: Config, s: Sys, p: Pid)
    requires AllTyped(cfg, s) && RolesCovered(s) && IsMachine(s, p) && At(s, p) && Current(s, p).CheckPods?
    ensures FullyRunning(cfg, s, s.procs[p].actor.uid) <==> AllRunning(s.pods, s.procs[p].actor.uid)
  {
    hide AllRunning, Covers;
    var pr := s.procs[p];
    assert Typed(cfg, pr);
    assert Allowed(cfg, pr.actor, CheckPods, pr.done, pr.keys.Keys);
    assert forall t | t in cfg.table :: Covers(s.pods, pr.actor.uid, t);
  }

  /** Whenever a machine reconcile writes a readiness, that very reconcile has checked the pods before, at event
      `i`, and what it writes is true exactly if at that moment all pods of its machine ran; with coherent labels,
      exactly if moreover every role had a pod. */
  lemma WriteFollowsItsCheck(cfg: Config, log: seq<Event>, p: Pid, refs: seq<Uid>) returns (i: nat)
    requires WellFormed(cfg) && Enabled(cfg, Run(cfg, InitialState(), log), MachineWritten(p, refs))
    ensures i < |log| && log[i] == PodsChecked(p)
    ensures var s, t := Run(cfg, InitialState(), log[..i]), Run(cfg, InitialState(), log);
            && Enabled(cfg, s, log[i]) && s.procs[p].actor == t.procs[p].actor
            && (Current(t, p).ready <==>
                  forall u | u in s.pods && s.pods[u].owner == Some(s.procs[p].actor.uid) :: s.pods[u].phase == Running)
            && (RoleCoherent(cfg.table) ==> (Current(t, p).ready <==> FullyRunning(cfg, s, s.procs[p].actor.uid)))
  {
    hide Run, WellFormed, Safe, FullyRunning, AllRunning, RoleCoherent, AllTyped, RolesCovered;
    i := VerdictWasReached(cfg, log, p, 0);
    RunningMeans(Run(cfg, InitialState(), log[..i]).pods, Run(cfg, InitialState(), log).procs[p].actor.uid);
    if RoleCoherent(cfg.table) {
      EveryRunIsSincere(cfg, log[..i]);
      SafeIsTyped(cfg, Run(cfg, InitialState(), log[..i]));
      CheckKnowsAllRoles(cfg, Run(cfg, InitialState(), log[..i]), p);
    }
  }

  lemma RunningMeans(pods: map<Uid, Pod>, m: Uid)
    ensures AllRunning(pods, m) <==> forall u | u in pods && pods[u].owner == Some(m) :: pods[u].phase == Running
  {
  }

  lemma SafeIsTyped(cfg: Config, s: Sys)
    requires Safe(cfg, s)
    ensures AllTyped(cfg, s)
  {
  }

  ghost predicate StoredReady(cfg: Config, log: seq<Event>, m: Uid) {
    var s := Run(cfg, InitialState(), log);
    m in s.machines && s.machines[m].ready
  }

  // Event j of the log stores machine m as ready.
  ghost predicate ReadyWrite(cfg: Config, log: seq<Event>, j: nat, m: Uid) {
    && j < |log| && log[j].MachineWritten?
    && var s := Run(cfg, InitialState(), log[..j]);
       Enabled(cfg, s, log[j]) && Current(s, log[j].p).ready && s.procs[log[j].p].actor.uid == m
  }

  // Event i is a check by the reconcile of event j, and found machine m fully running.
  ghost predicate FoundFullyRunning(cfg: Config, log: seq<Event>, i: nat, j: nat, m: Uid) {
    && i < j < |log| && log[j].MachineWritten? && log[i] == PodsChecked(log[j].p)
    && FullyRunning(cfg, Run(cfg, InitialState(), log[..i]), m)
  }

  lemma ReadyWriteWasChecked(cfg: Config, log: seq<Event>, j: nat, m: Uid) returns (i: nat)
    requires WellFormed(cfg) && RoleCoherent(cfg.table) && ReadyWrite(cfg, log, j, m)
    ensures FoundFullyRunning(cfg, log, i, j, m)
  {
    hide Run, WellFormed, FullyRunning, AllRunning, RoleCoherent, Enabled;
    i := WriteFollowsItsCheck(cfg, log[..j], log[j].p, log[j].refs);
    assert log[..j][..i] == log[..i] && log[..j][i] == log[i];
  }

  lemma ReadyStep(cfg: Config, s: Sys, e: Event, m: Uid)
    requires m in Next(cfg, s, e).machines && Next(cfg, s, e).machines[m].ready
    ensures (m in s.machines && s.machines[m].ready) ||
            (e.MachineWritten? && Enabled(cfg, s, e) && Current(s, e.p).ready && s.procs[e.p].actor.uid == m)
  {
  }

  lemma EverReadyStep(cfg: Config, s: Sys, e: Event, m: Uid)
    requires m !in s.everReady && m in Next(cfg, s, e).everReady
    ensures e.MachineWritten? && Enabled(cfg, s, e) && Current(s, e.p).ready && s.procs[e.p].actor.uid == m
  {
  }

  lemma ReadyWriteEarlier(cfg: Config, log: seq<Event>, n: nat, j: nat, m: Uid)
    requires n <= |log| && ReadyWrite(cfg, log[..n], j, m)
    ensures ReadyWrite(cfg, log, j, m)
  {
    hide Run, Enabled;
    assert log[..n][..j] == log[..j] && log[..n][j] == log[j];
  }

  // The write that a stored readiness is left from.
  lemma {:induction false} ReadyWasWritten(cfg: Config, log: seq<Event>, m: Uid) returns (j: nat)
    requires StoredReady(cfg, log, m)
    ensures ReadyWrite(cfg, log, j, m) && forall k | j < k <= |log| :: StoredReady(cfg, log[..k], m)
  {
    hide Next, Enabled;
    assert log[..|log|] == log;
    var n := |log| - 1;
    ReadyStep(cfg, Run(cfg, InitialState(), log[..n]), log[n], m);
    if StoredReady(cfg, log[..n], m) {
      j := ReadyWasWritten(cfg, log[..n], m);
      ReadyWriteEarlier(cfg, log, n, j, m);
      assert forall k | 0 <= k <= n :: log[..n][..k] == log[..k];
    } else {
      j := n;
    }
  }

  lemma {:induction false} EverReadyWasWritten(cfg: Config, log: seq<Event>, m: Uid) returns (j: nat)
    requires m in Run(cfg, InitialState(), log).everReady
    ensures ReadyWrite(cfg, log, j, m)
  {
    hide Next, Enabled;
    var n := |log| - 1;
    if m in Run(cfg, InitialState(), log[..n]).everReady {
      j := EverReadyWasWritten(cfg, log[..n], m);
      ReadyWriteEarlier(cfg, log, n, j, m);
    } else {
      EverReadyStep(cfg, Run(cfg, InitialState(), log[..n]), log[n], m);
      j := n;
    }
  }

  /** A machine that is stored as ready is so since some write `j`, and the reconcile of that write found, by its
      own check `i`, every role with a pod and all pods running. */
  lemma ReadyMachineWasRunning(cfg: Config, log: seq<Event>, m: Uid) returns (i: nat, j: nat)
    requires WellFormed(cfg) && RoleCoherent(cfg.table) && StoredReady(cfg, log, m)
    ensures ReadyWrite(cfg, log, j, m) && FoundFullyRunning(cfg, log, i, j, m)
    ensures forall k | j < k <= |log| :: StoredReady(cfg, log[..k], m)
  {
    hide Run, WellFormed, StoredReady, ReadyWrite, FoundFullyRunning;
    j := ReadyWasWritten(cfg, log, m);
    i := ReadyWriteWasChecked(cfg, log, j, m);
  }

  // --- The control plane ----------------------------------------------------------------------------------

  ghost predicate ControlPlaneReady(cfg: Config, log: seq<Event>) {
    var s := Run(cfg, InitialState(), log);
    s.status.Some? && s.status.value.ready
  }

  // Event l of the log stores the control plane as ready.
  ghost predicate ReadyStatusWrite(cfg: Config, log: seq<Event>, l: nat) {
    && l < |log| && log[l].ControlPlaneWritten?
    && var s := Run(cfg, InitialState(), log[..l]);
       Enabled(cfg, s, log[l]) && Current(s, log[l].p).status.ready
  }

  // Event k is a count by the reconcile of event l, of a list that shows machine m as its own and ready.
  predicate CountedAsReady(cfg: Config, log: seq<Event>, k: nat, l: nat, m: Uid) {
    && k < l < |log| && log[l].ControlPlaneWritten? && log[k].MachinesCounted? && log[k].p == log[l].p
    && exists it | it in log[k].items :: it.uid == m && it.machine.controller == cfg.kcp && it.machine.ready
  }

  lemma StatusStep(cfg: Config, s: Sys, e: Event)
    requires Next(cfg, s, e).status.Some? && Next(cfg, s, e).status.value.ready
    ensures (s.status.Some? && s.status.value.ready) ||
            (e.ControlPlaneWritten? && Enabled(cfg, s, e) && Current(s, e.p).status.ready)
  {
  }

  lemma {:induction false} ReadyStatusWasWritten(cfg: Config, log: seq<Event>) returns (l: nat)
    requires ControlPlaneReady(cfg, log)
    ensures ReadyStatusWrite(cfg, log, l) && forall k | l < k <= |log| :: ControlPlaneReady(cfg, log[..k])
  {
    hide Next, Enabled;
    assert log[..|log|] == log;
    var n := |log| - 1;
    StatusStep(cfg, Run(cfg, InitialState(), log[..n]), log[n]);
    if ControlPlaneReady(cfg, log[..n]) {
      l := ReadyStatusWasWritten(cfg, log[..n]);
      assert log[..n][..l] == log[..l] && log[..n][l] == log[l];
      assert forall k | 0 <= k <= n :: log[..n][..k] == log[..k];
    } else {
      l := n;
    }
  }

  lemma {:induction false} StatusWasWritten(cfg: Config, log: seq<Event>) returns (l: nat)
    requires Run(cfg, InitialState(), log).status.Some?
    ensures l < |log| && log[l].ControlPlaneWritten?
    ensures var s := Run(cfg, InitialState(), log[..l]);
            Enabled(cfg, s, log[l]) && Some(Current(s, log[l].p).status) == Run(cfg, InitialState(), log).status
  {
    l := |log| - 1;
    var s := Run(cfg, InitialState(), log[..l]);
    if !(log[l].ControlPlaneWritten? && Enabled(cfg, s, log[l])) {
      var n := l;
      l := StatusWasWritten(cfg, log[..n]);
      assert log[..n][..l] == log[..l] && log[..n][l] == log[l];
    }
  }

  /** In every run the stored status of the control plane is the count, at event `k`, of the reconcile that wrote it
      at event `l`; it is always marked as managed externally, and ready exactly if a ready machine was counted. */
  lemma StoredStatusIsACount(cfg: Config, log: seq<Event>) returns (k: nat, l: nat)
    requires Run(cfg, InitialState(), log).status.Some?
    ensures k < l < |log| && log[k].MachinesCounted? && log[l] == ControlPlaneWritten(log[k].p)
    ensures var st := Run(cfg, InitialState(), log).status.value;
            && st.readyReplicas == Narrow(Controlled(log[k].items, cfg.kcp, true))
            && st.unavailableReplicas == Narrow(Controlled(log[k].items, cfg.kcp, false))
            && st.external && st.initialized == st.ready == (st.readyReplicas > 0)
  {
    hide Run, Narrow, Controlled;
    l := StatusWasWritten(cfg, log);
    k := VerdictWasReached(cfg, log[..l], log[l].p, 0);
    assert log[..l][..k] == log[..k] && log[..l][k] == log[k];
  }

  lemma {:induction false} CountedReady(items: seq<MachineItem>, kcp: Uid)
    requires Controlled(items, kcp, true) > 0
    ensures exists it | it in items :: it.machine.controller == kcp && it.machine.ready
  {
    if items[0].machine.controller != kcp || !items[0].machine.ready {
      CountedReady(items[1..], kcp);
      var it :| it in items[1..] && it.machine.controller == kcp && it.machine.ready;
      assert it in items;
    } else {
      assert items[0] in items;
    }
  }

  // The count behind a write that stores the control plane as ready.
  lemma ReadyStatusWasCounted(cfg: Config, log: seq<Event>, l: nat) returns (k: nat, m: Uid)
    requires ReadyStatusWrite(cfg, log, l)
    ensures CountedAsReady(cfg, log, k, l, m)
    ensures var s := Run(cfg, InitialState(), log[..k]); m in s.born && s.born[m] == cfg.kcp && m in s.everReady
  {
    hide Run;
    k := VerdictWasReached(cfg, log[..l], log[l].p, 0);
    assert log[..l][..k] == log[..k] && log[..l][k] == log[k];
    CountedReady(log[k].items, cfg.kcp);
    var it :| it in log[k].items && it.machine.controller == cfg.kcp && it.machine.ready;
    m := it.uid;
    assert Seen(Run(cfg, InitialState(), log[..k]), it);
  }

  /** A control plane that is stored as ready is so since some write `l`; the reconcile of that write had counted,
      at event `k`, a machine of its own listed as ready; that machine had been stored as ready by a write `j`,
      and the reconcile of that write had found it, by its own check `i`, fully running. */
  lemma ReadyControlPlaneHadARunningMachine(cfg: Config, log: seq<Event>)
    returns (m: Uid, i: nat, j: nat, k: nat, l: nat)
    requires WellFormed(cfg) && RoleCoherent(cfg.table) && ControlPlaneReady(cfg, log)
    ensures ReadyStatusWrite(cfg, log, l) && forall x | l < x <= |log| :: ControlPlaneReady(cfg, log[..x])
    ensures CountedAsReady(cfg, log, k, l, m)
    ensures m in Run(cfg, InitialState(), log[..k]).born && Run(cfg, InitialState(), log[..k]).born[m] == cfg.kcp
    ensures j < k && ReadyWrite(cfg, log, j, m) && FoundFullyRunning(cfg, log, i, j, m)
  {
    hide Run, WellFormed, ControlPlaneReady, ReadyWrite, FoundFullyRunning, ReadyStatusWrite;
    l := ReadyStatusWasWritten(cfg, log);
    k, m := ReadyStatusWasCounted(cfg, log, l);
    j := EverReadyWasWritten(cfg, log[..k], m);
    ReadyWriteInRange(cfg, log[..k], j, m);
    ReadyWriteEarlier(cfg, log, k, j, m);
    i := ReadyWriteWasChecked(cfg, log, j, m);
  }

  lemma ReadyWriteInRange(cfg: Config, log: seq<Event>, j: nat, m: Uid)
    requires ReadyWrite(cfg, log, j, m)
    ensures j < |log|
  {
  }
}
