/** What one reconcile of a machine can do when its calls are the only ones and none fails. */
module LoneReconcile {
  import opened Protocol
  import opened PodPasses
  import opened PodRuns
  import opened CertificateHistory

  // --- A machine reconcile running alone ------------------------------------------------------------------

  lemma RunOne(cfg: Config, s: Sys, e: Event)
    ensures Run(cfg, s, [e]) == Next(cfg, s, e)
  {
    assert [e][..0] == [];
  }

  // Reconcile `p` of machine `m` has `todo` left.
  predicate Doing(s: Sys, p: Pid, m: Uid, order: seq<string>, todo: seq<Task>) {
    p in s.procs && s.procs[p].actor == MachineActor(m, order) && s.procs[p].todo == todo
  }

  lemma PodMadeStep(cfg: Config, s: Sys, p: Pid, m: Uid, order: seq<string>, role: string, rest: seq<Task>)
    requires Doing(s, p, m, order, [MakePod(role)] + rest) && role in cfg.table
    ensures var t := Next(cfg, s, PodMade(p));
            && Doing(t, p, m, order, rest) && t.machines == s.machines && t.services == s.services
            && t.pods == s.pods[s.nextUid := FromTemplate(m, cfg.table[role])] && t.nextUid == s.nextUid + 1
            && t.procs.Keys == s.procs.Keys && t.born == s.born
  {
    assert [] + ([MakePod(role)] + rest)[1..] == rest;
    assert Enabled(cfg, s, PodMade(p));
    assert Next(cfg, s, PodMade(p)).procs[p] == ProcAfter(cfg, s, PodMade(p));
  }

  // The calls that create what is missing from position i of the order on.
  lemma {:induction false} MakeAlone(cfg: Config, s: Sys, p: Pid, m: Uid, order: seq<string>, i: nat,
                                     before: map<Uid, Pod>, next: Uid, rest: seq<Task>) returns (log: seq<Event>)
    requires i <= |order| && IsRoleOrder(cfg.table, order)
    requires Doing(s, p, m, order, MakeTasks(order[i..], OwnedRoles(before, m)) + rest)
    requires PassSoFar(before, s.pods, next, s.nextUid, m, cfg.table, Missing(order[..i], OwnedRoles(before, m)))
    ensures var t := Run(cfg, s, log);
            && Doing(t, p, m, order, rest) && t.machines == s.machines && t.services == s.services
            && PassSoFar(before, t.pods, next, t.nextUid, m, cfg.table, Missing(order, OwnedRoles(before, m)))
            && t.procs.Keys == s.procs.Keys && t.born == s.born
    ensures AllBy(log, p)
    decreases |order| - i
  {
    hide Run, MakeTasks, Missing, OwnedRoles, IsRoleOrder, PassSoFar, Next;
    var found := OwnedRoles(before, m);
    if i == |order| {
      log := [];
      NoMoreMakes(order, found, rest);
      NoEvents(cfg, s);
      assert order[..i] == order;
    } else {
      MakesUnfold(order, found, rest, i);
      MissingNext(order, found, i);
      if order[i] in found {
        assert Missing(order[..i], found) + [] == Missing(order[..i], found);
        log := MakeAlone(cfg, s, p, m, order, i + 1, before, next, rest);
      } else {
        OrderIsInTable(cfg.table, order);
        var s' := Next(cfg, s, PodMade(p));
        PodMadeStep(cfg, s, p, m, order, order[i], MakeTasks(order[i + 1..], found) + rest);
        OneMoreMade(before, s.pods, next, s.nextUid, m, cfg.table, Missing(order[..i], found), order[i]);
        var later := MakeAlone(cfg, s', p, m, order, i + 1, before, next, rest);
        log := [PodMade(p)] + later;
        RunOne(cfg, s, PodMade(p));
        RunAppend(cfg, s, [PodMade(p)], later);
      }
    }
  }

  lemma NoEvents(cfg: Config, s: Sys)
    ensures Run(cfg, s, []) == s
  {
  }

  lemma StartStep(cfg: Config, s: Sys, p: Pid, m: Uid, order: seq<string>)
    requires p !in s.procs && m in s.born && IsRoleOrder(cfg.table, order)
    ensures var t := Next(cfg, s, StartMachine(p, m, order));
            && Doing(t, p, m, order, MachineTasks()) && t.machines == s.machines && t.services == s.services
            && t.pods == s.pods && t.nextUid == s.nextUid && t.procs.Keys == s.procs.Keys + {p} && t.born == s.born
  {
  }

  lemma PodListStep(cfg: Config, s: Sys, p: Pid, m: Uid, order: seq<string>)
    requires Doing(s, p, m, order, MachineTasks())
    ensures var t := Next(cfg, s, PodsListed(p));
            && Doing(t, p, m, order, MakeTasks(order, OwnedRoles(s.pods, m)) + [ListServices, CheckPods])
            && t.machines == s.machines && t.services == s.services
            && t.pods == s.pods && t.nextUid == s.nextUid && t.procs.Keys == s.procs.Keys && t.born == s.born
  {
    assert MachineTasks()[1..] == [ListServices, CheckPods];
    assert Enabled(cfg, s, PodsListed(p));
    assert Next(cfg, s, PodsListed(p)).procs[p] == ProcAfter(cfg, s, PodsListed(p));
  }

  lemma ListingStarts(cfg: Config, s: Sys, p: Pid, m: Uid, order: seq<string>)
    requires p !in s.procs && m in s.born && IsRoleOrder(cfg.table, order)
    ensures var t := Run(cfg, s, [StartMachine(p, m, order), PodsListed(p)]);
            && Doing(t, p, m, order, MakeTasks(order, OwnedRoles(s.pods, m)) + [ListServices, CheckPods])
            && t.machines == s.machines && t.services == s.services
            && t.pods == s.pods && t.nextUid == s.nextUid && t.procs.Keys == s.procs.Keys + {p} && t.born == s.born
  {
    hide Run, IsRoleOrder, MakeTasks, OwnedRoles, Next;
    StartStep(cfg, s, p, m, order);
    PodListStep(cfg, Next(cfg, s, StartMachine(p, m, order)), p, m, order);
    RunOne(cfg, s, StartMachine(p, m, order));
    RunOne(cfg, Next(cfg, s, StartMachine(p, m, order)), PodsListed(p));
    RunAppend(cfg, s, [StartMachine(p, m, order)], [PodsListed(p)]);
    assert [StartMachine(p, m, order), PodsListed(p)] == [StartMachine(p, m, order)] + [PodsListed(p)];
  }

  // The calls of one reconcile of machine m, from its start on.
  predicate SoloOf(log: seq<Event>, p: Pid, m: Uid) {
    && log != [] && log[0].StartMachine? && log[0].p == p && log[0].uid == m
    && AllBy(log, p)
  }

  // A whole pass, alone and without failure.
  lemma PassAlone(cfg: Config, s: Sys, p: Pid, m: Uid, order: seq<string>) returns (log: seq<Event>)
    requires p !in s.procs && m in s.born && IsRoleOrder(cfg.table, order)
    ensures var t := Run(cfg, s, log);
            && Doing(t, p, m, order, [ListServices, CheckPods]) && t.machines == s.machines
            && t.born == s.born
            && PassSoFar(s.pods, t.pods, s.nextUid, t.nextUid, m, cfg.table, Missing(order, OwnedRoles(s.pods, m)))
    ensures SoloOf(log, p, m) && Starts(cfg, s, log[0], m)
  {
    hide Run, IsRoleOrder, MakeTasks, OwnedRoles, Missing, PassSoFar;
    var start := [StartMachine(p, m, order), PodsListed(p)];
    var s', found := Run(cfg, s, start), OwnedRoles(s.pods, m);
    ListingStarts(cfg, s, p, m, order);
    NothingSoFar(s.pods, s.nextUid, m, cfg.table, order[..0], found);
    MissingOfNothing(order, found);
    assert order[0..] == order;
    var later := MakeAlone(cfg, s', p, m, order, 0, s.pods, s.nextUid, [ListServices, CheckPods]);
    log := start + later;
    RunAppend(cfg, s, start, later);
  }

  // --- All pods come to run, and the machine is stored as ready -------------------------------------------

  predicate SamePods(before: map<Uid, Pod>, after: map<Uid, Pod>) {
    && after.Keys == before.Keys
    && forall u | u in before :: after[u] == before[u].(phase := after[u].phase)
  }

  lemma PhaseStep(cfg: Config, s: Sys, u: Uid)
    requires u in s.pods
    ensures Next(cfg, s, PodPhase(u, Running)) == s.(pods := s.pods[u := s.pods[u].(phase := Running)])
  {
  }

  // Of `before`, the pods in `some` have come to run, and nothing else happened.
  predicate NowRun(before: map<Uid, Pod>, after: map<Uid, Pod>, some: set<Uid>) {
    && SamePods(before, after)
    && forall u | u in before :: after[u].phase == if u in some then Running else before[u].phase
  }

  lemma OneMoreRuns(before: map<Uid, Pod>, after: map<Uid, Pod>, some: set<Uid>, u: Uid)
    requires u in before && u in some && NowRun(before[u := before[u].(phase := Running)], after, some - {u})
    ensures NowRun(before, after, some)
  {
  }

  lemma {:induction false} PodsComeToRun(cfg: Config, s: Sys, some: set<Uid>) returns (log: seq<Event>)
    requires some <= s.pods.Keys
    ensures Run(cfg, s, log) == s.(pods := Run(cfg, s, log).pods)
    ensures NowRun(s.pods, Run(cfg, s, log).pods, some)
    decreases some
  {
    hide Run, Next, NowRun;
    if some == {} {
      log := [];
      NoEvents(cfg, s);
      NoneRun(s.pods);
    } else {
      var u :| u in some;
      var s' := Next(cfg, s, PodPhase(u, Running));
      PhaseStep(cfg, s, u);
      var later := PodsComeToRun(cfg, s', some - {u});
      OneMoreRuns(s.pods, Run(cfg, s', later).pods, some, u);
      log := [PodPhase(u, Running)] + later;
      RunOne(cfg, s, PodPhase(u, Running));
      RunAppend(cfg, s, [PodPhase(u, Running)], later);
    }
  }

  lemma NoneRun(pods: map<Uid, Pod>)
    ensures NowRun(pods, pods, {})
  {
  }

  function ServiceEvents(s: Sys, p: Pid, m: Uid): seq<Event> {
    if OwnsEtcdService(s.services, m) then [ServicesListed(p)] else [ServicesListed(p), CallFailed(p)]
  }

  lemma TwoSteps(cfg: Config, s: Sys, e: Event, e': Event)
    ensures Run(cfg, s, [e, e']) == Next(cfg, Next(cfg, s, e), e')
  {
    hide Next;
    RunOne(cfg, s, e);
    assert [e, e'][..1] == [e];
  }

  lemma ServicesPass(cfg: Config, s: Sys, p: Pid, m: Uid, order: seq<string>)
    requires Doing(s, p, m, order, [ListServices, CheckPods])
    ensures var t := Run(cfg, s, ServiceEvents(s, p, m));
            Doing(t, p, m, order, [CheckPods]) && t.machines == s.machines && t.pods == s.pods
  {
    hide Run, OwnsEtcdService;
    var a := Next(cfg, s, ServicesListed(p));
    assert Enabled(cfg, s, ServicesListed(p));
    assert a.procs[p] == ProcAfter(cfg, s, ServicesListed(p));
    assert [ListServices, CheckPods][1..] == [CheckPods] && [] + [CheckPods] == [CheckPods];
    if OwnsEtcdService(s.services, m) {
      RunOne(cfg, s, ServicesListed(p));
    } else {
      assert a.procs[p].todo == [MakeService] + [CheckPods];
      assert ([MakeService] + [CheckPods])[1..] == [CheckPods];
      assert Enabled(cfg, a, CallFailed(p));
      TwoSteps(cfg, s, ServicesListed(p), CallFailed(p));
    }
  }

  lemma CheckPass(cfg: Config, s: Sys, p: Pid, m: Uid, order: seq<string>)
    requires Doing(s, p, m, order, [CheckPods]) && m in s.machines && AllRunning(s.pods, m)
    ensures var t := Run(cfg, s, [PodsChecked(p), MachineWritten(p, [])]);
            m in t.machines && t.machines[m].ready && t.pods == s.pods
  {
    hide Run;
    var a := Next(cfg, s, PodsChecked(p));
    assert Enabled(cfg, s, PodsChecked(p));
    assert a.procs[p] == ProcAfter(cfg, s, PodsChecked(p));
    assert a.procs[p].todo[0] == WriteMachine(true);
    assert Enabled(cfg, a, MachineWritten(p, []));
    TwoSteps(cfg, s, PodsChecked(p), MachineWritten(p, []));
  }

  lemma SameRoles(before: map<Uid, Pod>, after: map<Uid, Pod>, m: Uid)
    requires SamePods(before, after)
    ensures OwnedRoles(after, m) == OwnedRoles(before, m)
  {
    assert Elsewhere(before, after, m);
    ElsewhereKeepsRoles(before, after, m);
  }

  /** From any state with machine `m`, one more reconcile of it can run alone, create all that is missing, and
      after the pods have come to run, store the machine as ready. */
  lemma BecomesReady(cfg: Config, s: Sys, p: Pid, m: Uid, order: seq<string>) returns (log: seq<Event>)
    requires p !in s.procs && m in s.born && m in s.machines && IsRoleOrder(cfg.table, order) &&
              UidsBelow(s.pods, s.nextUid)
    ensures var t := Run(cfg, s, log);
            && m in t.machines && t.machines[m].ready
            && (forall r | r in Missing(order, OwnedRoles(s.pods, m)) :: r in cfg.table)
            && OwnedRoles(t.pods, m)
               == OwnedRoles(s.pods, m) + LabelledAs(cfg.table, Missing(order, OwnedRoles(s.pods, m)))
  {
    hide Run, IsRoleOrder, OwnedRoles, Missing, LabelledAs, UidsBelow, NowRun, SamePods, OwnsEtcdService, Plus;
    var pass := PassAlone(cfg, s, p, m, order);
    var a := Run(cfg, s, pass);
    RolesAfter(s.pods, s.nextUid, m, cfg.table, Missing(order, OwnedRoles(s.pods, m)));
    var services := ServiceEvents(a, p, m);
    ServicesPass(cfg, a, p, m, order);
    var b := Run(cfg, a, services);
    var phases := PodsComeToRun(cfg, b, b.pods.Keys);
    var c := Run(cfg, b, phases);
    AllPodsRun(b.pods, c.pods, m);
    SameRoles(b.pods, c.pods, m);
    CheckPass(cfg, c, p, m, order);
    var check := [PodsChecked(p), MachineWritten(p, [])];
    log := pass + services + phases + check;
    RunAppend(cfg, s, pass, services);
    RunAppend(cfg, s, pass + services, phases);
    RunAppend(cfg, s, pass + services + phases, check);
  }

  lemma AllPodsRun(before: map<Uid, Pod>, after: map<Uid, Pod>, m: Uid)
    requires NowRun(before, after, before.Keys)
    ensures SamePods(before, after) && AllRunning(after, m)
  {
  }

  // --- Stopping half-way --------------------------------------------------------------------------------

  // A reconcile that stops after its first creation.
  lemma StopsAfterOne(cfg: Config, s: Sys, p: Pid, m: Uid, order: seq<string>) returns (log: seq<Event>)
    requires p !in s.procs && m in s.born && IsRoleOrder(cfg.table, order) && order != []
    requires OwnedRoles(s.pods, m) == {}
    ensures order[0] in cfg.table
    ensures var t := Run(cfg, s, log);
            && t.machines == s.machines && t.born == s.born && t.procs.Keys == s.procs.Keys + {p}
            && t.pods == s.pods[s.nextUid := FromTemplate(m, cfg.table[order[0]])] && t.nextUid == s.nextUid + 1
    ensures SoloOf(log, p, m) && Starts(cfg, s, log[0], m)
  {
    hide Run, IsRoleOrder, OwnedRoles, Next, MakeTasks;
    var start := [StartMachine(p, m, order), PodsListed(p)];
    var a, rest := Run(cfg, s, start), [ListServices, CheckPods];
    ListingStarts(cfg, s, p, m, order);
    OrderIsInTable(cfg.table, order);
    MakesUnfold(order, {}, rest, 0);
    assert order[0..] == order;
    PodMadeStep(cfg, a, p, m, order, order[0], MakeTasks(order[1..], {}) + rest);
    log := start + [PodMade(p)];
    RunNext(cfg, s, start, PodMade(p));
  }

  lemma NothingIsOwned(m: Uid)
    ensures OwnedRoles(map[], m) == {}
  {
  }

  lemma OneIsOwned(pods: map<Uid, Pod>, u: Uid, m: Uid, t: PodTemplate)
    requires u !in pods && OwnedRoles(pods, m) == {} && RoleOf(t.labels).Some?
    ensures OwnedRoles(pods[u := FromTemplate(m, t)], m) == {RoleOf(t.labels).value}
  {
    var after := pods[u := FromTemplate(m, t)];
    assert u in after && Owned(after[u], m) && ROLE_LABEL in after[u].labels;
  }
}
