/** What a machine reconcile stores when no pod comes to run while it is under way, in runs of the whole system:
    anything else may interleave, overlapping reconciles of the machine included. */
module ReadyAtRest {
  import opened Protocol
  import opened Typing
  import opened Safety
  import opened Readiness
  import opened CertificateHistory
  import opened PodPasses
  import opened PodRuns
  import opened LoneReconcile
  import opened TableLabels
  import opened OwnMachine
  import opened ReadinessExact
  import opened PodBounds

  // No pod comes to run in these events.
  predicate AtRest(log: seq<Event>) {
    forall e | e in log && e.PodPhase? :: e.phase != Running
  }

  // The machine has a pod that does not run.
  predicate HasIdlePod(pods: map<Uid, Pod>, m: Uid) {
    exists u | u in pods :: Owned(pods[u], m) && pods[u].phase != Running
  }

  // --- A role that labels no template -----------------------------------------------------------------------

  lemma PodStays(cfg: Config, s: Sys, e: Event, u: Uid)
    requires PodsBelong(cfg, s) && u in s.pods && (e.PodPhase? ==> e.phase != Running)
    ensures u in Next(cfg, s, e).pods && Next(cfg, s, e).pods[u].owner == s.pods[u].owner
    ensures s.pods[u].phase != Running ==> Next(cfg, s, e).pods[u].phase != Running
  {
    assert u != s.nextUid;
  }

  lemma IdlePodStays(cfg: Config, s: Sys, e: Event, m: Uid)
    requires PodsBelong(cfg, s) && HasIdlePod(s.pods, m) && (e.PodPhase? ==> e.phase != Running)
    ensures HasIdlePod(Next(cfg, s, e).pods, m)
  {
    hide Next, PodsBelong;
    var u :| u in s.pods && Owned(s.pods[u], m) && s.pods[u].phase != Running;
    PodStays(cfg, s, e, u);
  }

  lemma NewPodIsIdle(cfg: Config, s: Sys, e: Event)
    requires e.PodMade? && Enabled(cfg, s, e)
    ensures HasIdlePod(Next(cfg, s, e).pods, s.procs[e.p].actor.uid)
  {
    var pods := Next(cfg, s, e).pods;
    assert s.nextUid in pods && Owned(pods[s.nextUid], s.procs[e.p].actor.uid) && pods[s.nextUid].phase == Pending;
  }

  // What makes a reconcile take an unlabelled role for covered is the pod it has just made.
  lemma OnlyMakingTeaches(cfg: Config, s: Sys, e: Event, p: Pid, role: string)
    requires p in Next(cfg, s, e).procs && IsMachine(Next(cfg, s, e), p) && role in Next(cfg, s, e).procs[p].done
    requires p !in s.procs || role !in s.procs[p].done
    requires IsMachine(s, p) ==> role !in OwnedRoles(s.pods, s.procs[p].actor.uid)
    requires AllTyped(cfg, s)
    ensures e.PodMade? && Enabled(cfg, s, e) && e.p == p && IsMachine(s, p)
    ensures Next(cfg, s, e).procs[p].actor == s.procs[p].actor
  {
    hide OwnedRoles;
    if p in s.procs {
      assert Typed(cfg, s.procs[p]);
    }
  }

  lemma {:induction false} CoveredByAnIdlePod(cfg: Config, log: seq<Event>, more: seq<Event>, p: Pid, role: string)
    requires WellFormed(cfg) && Unlabelled(cfg.table, role) && AtRest(more)
    requires p !in Run(cfg, InitialState(), log).procs
    ensures var s := Run(cfg, InitialState(), log + more);
            p in s.procs && IsMachine(s, p) && role in s.procs[p].done ==> HasIdlePod(s.pods, s.procs[p].actor.uid)
    decreases |more|
  {
    hide Run, WellFormed, Safe, Next, HasIdlePod, OwnedRoles, PodsBelong, AllTyped, Unlabelled, Enabled;
    if more == [] {
      assert log + more == log;
    } else {
      var n := |more| - 1;
      var early := log + more[..n];
      var s, e := Run(cfg, InitialState(), early), more[n];
      CoveredByAnIdlePod(cfg, log, more[..n], p, role);
      EveryRunIsSafe(cfg, early);
      PodsAreBelonging(cfg, s);
      SafeIsTyped(cfg, s);
      LastStep(cfg, log, more);
      var t := Next(cfg, s, e);
      if p in t.procs && IsMachine(t, p) && role in t.procs[p].done {
        if p in s.procs && role in s.procs[p].done {
          ActorKept(cfg, s, e, p);
          IdlePodStays(cfg, s, e, s.procs[p].actor.uid);
        } else {
          if IsMachine(s, p) {
            UnlabelledIsNeverOwned(cfg, early, s.procs[p].actor.uid, role);
          }
          OnlyMakingTeaches(cfg, s, e, p, role);
          NewPodIsIdle(cfg, s, e);
        }
      }
    }
  }

  lemma {:induction false} ProcsOnlyCome(cfg: Config, log: seq<Event>, i: nat, p: Pid)
    requires i <= |log| && p in Run(cfg, InitialState(), log[..i]).procs
    ensures p in Run(cfg, InitialState(), log).procs
    decreases |log|
  {
    hide Next;
    if i == |log| {
      assert log[..i] == log;
    } else {
      var n := |log| - 1;
      assert log[..n][..i] == log[..i];
      ProcsOnlyCome(cfg, log[..n], i, p);
      ActorKept(cfg, Run(cfg, InitialState(), log[..n]), log[n], p);
    }
  }

  lemma CheckKnowsRole(cfg: Config, s: Sys, p: Pid, role: string)
    requires AllTyped(cfg, s) && At(s, p) && Current(s, p).CheckPods? && role in cfg.table
    ensures IsMachine(s, p) && role in s.procs[p].done
  {
    var pr := s.procs[p];
    assert Typed(cfg, pr) && Allowed(cfg, pr.actor, CheckPods, pr.done, pr.keys.Keys);
  }

  lemma IdleIsNotRunning(pods: map<Uid, Pod>, m: Uid)
    requires HasIdlePod(pods, m)
    ensures exists u | u in pods && pods[u].owner == Some(m) :: pods[u].phase != Running
  {
  }

  /** With a role that labels no template, no reconcile that starts after `log` stores its machine as ready, in
      whatever run `more` in which no pod comes to run. */
  lemma NeverReadyAtRest(cfg: Config, log: seq<Event>, more: seq<Event>, role: string, j: nat, m: Uid)
    requires WellFormed(cfg) && Unlabelled(cfg.table, role) && AtRest(more)
    requires ReadyWrite(cfg, log + more, j, m)
    ensures (log + more)[j].p in Run(cfg, InitialState(), log).procs
  {
    hide Run, WellFormed, Safe, Next, HasIdlePod, AllRunning, AllTyped, Enabled, RoleCoherent, FullyRunning;
    var all := log + more;
    var p := all[j].p;
    if p !in Run(cfg, InitialState(), log).procs {
      UnlabelledIsARole(cfg.table, role);
      var i := WriteFollowsItsCheck(cfg, all[..j], p, all[j].refs);
      assert all[..j][..i] == all[..i] && all[..j][i] == all[i];
      var s := Run(cfg, InitialState(), all[..i]);
      CheckedBy(cfg, s, p);
      if i <= |log| {
        assert all[..i] == log[..i];
        ProcsOnlyCome(cfg, log, i, p);
      }
      assert all[..i] == log + more[..i - |log|];
      EveryRunIsSafe(cfg, all[..i]);
      SafeIsTyped(cfg, s);
      CheckKnowsRole(cfg, s, p, role);
      CoveredByAnIdlePod(cfg, log, more[..i - |log|], p, role);
      IdleIsNotRunning(s.pods, s.procs[p].actor.uid);
    }
  }

  lemma CheckedBy(cfg: Config, s: Sys, p: Pid)
    requires Enabled(cfg, s, PodsChecked(p))
    ensures At(s, p) && Current(s, p).CheckPods?
  {
  }

  // --- A table all of whose roles label some template -------------------------------------------------------

  // A reconcile of machine m that starts when all roles have pods and all pods run, alone, stores it as ready.
  lemma ReadyAtOnce(cfg: Config, s: Sys, p: Pid, m: Uid, order: seq<string>) returns (log: seq<Event>)
    requires p !in s.procs && m in s.born && m in s.machines && IsRoleOrder(cfg.table, order)
    requires cfg.table.Keys <= OwnedRoles(s.pods, m) && AllRunning(s.pods, m)
    ensures AllBy(log, p) && m in Run(cfg, s, log).machines && Run(cfg, s, log).machines[m].ready
  {
    hide Run, OwnedRoles, Missing, Plus, AllRunning, IsRoleOrder, OwnsEtcdService, Starts;
    var pass := PassAlone(cfg, s, p, m, order);
    var a := Run(cfg, s, pass);
    NothingMissing(order, OwnedRoles(s.pods, m), cfg.table);
    NothingMade(s.pods, s.nextUid, m, cfg.table);
    var services := ServiceEvents(a, p, m);
    ServicesPass(cfg, a, p, m, order);
    var b := Run(cfg, a, services);
    CheckPass(cfg, b, p, m, order);
    var check := [PodsChecked(p), MachineWritten(p, [])];
    log := pass + services + check;
    RunAppend(cfg, s, pass, services);
    RunAppend(cfg, s, pass + services, check);
  }

  lemma NothingMissing(order: seq<string>, found: set<string>, table: Table)
    requires IsRoleOrder(table, order) && table.Keys <= found
    ensures Missing(order, found) == []
  {
    MissingContent(order, found);
    OrderIsInTable(table, order);
    if Missing(order, found) != [] {
      assert Missing(order, found)[0] in Missing(order, found);
    }
  }

  // A first complete pass covers every role when every role labels some template.
  lemma AllCovered(table: Table, order: seq<string>)
    requires IsRoleOrder(table, order) && forall role | role in table :: !Unlabelled(table, role)
    ensures forall r | r in Missing(order, {}) :: r in table
    ensures table.Keys <= LabelledAs(table, Missing(order, {}))
  {
    hide Missing, LabelledAs, Unlabelled;
    MissingContent(order, {});
    OrderIsInTable(table, order);
    assert forall r :: r in table <==> r in (set t | t in order);
    forall role | role in table ensures role in LabelledAs(table, Missing(order, {})) {
      var t := SomeTemplateWith(table, role);
      LabelledMeans(table, Missing(order, {}), role);
    }
  }

  // A run to a machine of the control plane with every role covered and every pod running, not stored as ready yet.
  lemma AllSetUp(cfg: Config) returns (log: seq<Event>, m: Uid)
    requires WellFormed(cfg) && forall role | role in cfg.table :: !Unlabelled(cfg.table, role)
    ensures var s := Run(cfg, InitialState(), log);
            && m in s.machines && !s.machines[m].ready && m in s.born && s.born[m] == cfg.kcp
            && cfg.table.Keys <= OwnedRoles(s.pods, m) && AllRunning(s.pods, m)
  {
    hide Run, WellFormed, OwnedRoles, Missing, Plus, AllRunning, IsRoleOrder, Starts, LabelledAs, Unlabelled, UidsBelow,
         NowRun, SamePods;
    var early: seq<Event>;
    early, m := AnOwnMachine(cfg);
    var s := Run(cfg, InitialState(), early);
    StoredWasBorn(cfg, early, m);
    var order := AnOrder(cfg.table.Keys);
    OrderOfKeys(cfg.table, order);
    var p := NewPid(s.procs.Keys);
    var pass := PassAlone(cfg, s, p, m, order);
    var a := Run(cfg, s, pass);
    NothingIsOwned(m);
    AllCovered(cfg.table, order);
    RolesAfter(s.pods, s.nextUid, m, cfg.table, Missing(order, OwnedRoles(s.pods, m)));
    var phases := PodsComeToRun(cfg, a, a.pods.Keys);
    AllPodsRun(a.pods, Run(cfg, a, phases).pods, m);
    SameRoles(a.pods, Run(cfg, a, phases).pods, m);
    log := early + pass + phases;
    RunAppend(cfg, InitialState(), early, pass);
    RunAppend(cfg, InitialState(), early + pass, phases);
  }

  // A reconcile that starts after `log` stores machine m, at event j, as ready, and no pod has come to run since.
  ghost predicate ReadyWithoutChange(cfg: Config, log: seq<Event>, more: seq<Event>, j: nat, m: Uid) {
    && AtRest(more) && ReadyWrite(cfg, log + more, j, m)
    && (log + more)[j].p !in Run(cfg, InitialState(), log).procs
  }

  lemma CanBeReadyAtRest(cfg: Config) returns (log: seq<Event>, more: seq<Event>, j: nat, m: Uid)
    requires WellFormed(cfg) && forall role | role in cfg.table :: !Unlabelled(cfg.table, role)
    ensures ReadyWithoutChange(cfg, log, more, j, m) && IsOwn(cfg, log, m)
  {
    hide Run, WellFormed, OwnedRoles, AllRunning, IsRoleOrder, Unlabelled, Enabled;
    log, m := AllSetUp(cfg);
    var s := Run(cfg, InitialState(), log);
    var p := NewPid(s.procs.Keys);
    var order := AnOrder(cfg.table.Keys);
    OrderOfKeys(cfg.table, order);
    more := ReadyAtOnce(cfg, s, p, m, order);
    RunAppend(cfg, InitialState(), log, more);
    j := ReadyWasWritten(cfg, log + more, m);
    var all := log + more;
    assert all[..|log|] == log;
    assert !StoredReady(cfg, all[..|log|], m);
    var e := more[j - |log|];
    assert all[j] == e && e in more && By(e) == Some(e.p);
    SoloIsAtRest(more, p);
  }

  lemma SoloIsAtRest(log: seq<Event>, p: Pid)
    requires AllBy(log, p)
    ensures AtRest(log)
  {
  }

  /** A role labels no template, if and only if in no run a reconcile stores its machine as ready without a pod having
      come to run since it started; and so it is already when only the machines of the control plane itself are
      looked at. */
  lemma ReadyAtRestIff(cfg: Config)
    requires WellFormed(cfg)
    ensures (exists role :: Unlabelled(cfg.table, role)) <==>
              forall log, more, j, m :: !ReadyWithoutChange(cfg, log, more, j, m)
    ensures (exists role :: Unlabelled(cfg.table, role)) <==>
              forall log, more, j, m | IsOwn(cfg, log, m) :: !ReadyWithoutChange(cfg, log, more, j, m)
  {
    hide Run, WellFormed, Unlabelled, ReadyWrite, AtRest, IsOwn;
    if role :| Unlabelled(cfg.table, role) {
      forall log, more, j, m ensures !ReadyWithoutChange(cfg, log, more, j, m) {
        if ReadyWithoutChange(cfg, log, more, j, m) {
          NeverReadyAtRest(cfg, log, more, role, j, m);
        }
      }
    } else {
      var log, more, j, m := CanBeReadyAtRest(cfg);
    }
  }
}
