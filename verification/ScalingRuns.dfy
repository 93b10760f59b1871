/** The number of machines in runs of the whole system, call by call: certificates, pods, phases and machine
    reconciles interleave freely, but reconciles of the control plane do not overlap, their lists of machines are
    current, and nobody else adds or removes machines. */
module ScalingRuns {
  import opened Int32
  import opened Protocol
  import opened Typing
  import opened Safety
  import opened Readiness
  import opened ApiServer
  import opened Scaling
  import opened CutRun

  // The reconcile of the control plane that started last in a run from some state.
  function LatestControl(cfg: Config, from: Sys, log: seq<Event>): Option<Pid> {
    if log == [] then None
    else
      var n := |log| - 1;
      if log[n].StartControlPlane? && Enabled(cfg, Run(cfg, from, log[..n]), log[n]) then Some(log[n].p)
      else LatestControl(cfg, from, log[..n])
  }

  // What scaling relies on, event by event: the target stays, lists are current, nobody else changes the machines,
  // and only the reconcile that started last takes steps.
  predicate Allows(s: Sys, e: Event, latest: Option<Pid>, replicas: int32) {
    && !e.ForeignMachine? && !e.MachineVanished?
    && (e.StartControlPlane? ==> e.replicas == replicas)
    && (e.MachinesListed? ==> ListsMachines(e.items, s.machines))
    && (By(e).Some? && IsControlPlane(s, By(e).value) ==> latest == By(e))
  }

  ghost predicate Undisturbed(cfg: Config, from: Sys, log: seq<Event>, replicas: int32) {
    log == [] || (
      var n := |log| - 1;
      && Undisturbed(cfg, from, log[..n], replicas)
      && Allows(Run(cfg, from, log[..n]), log[n], LatestControl(cfg, from, log[..n]), replicas))
  }

  // --- The scaling calls a reconcile has left -------------------------------------------------------------

  function Adds(todo: seq<Task>): nat {
    if todo == [] then 0 else (if todo[0].AddMachine? then 1 else 0) + Adds(todo[1..])
  }

  function Drops(todo: seq<Task>): nat {
    if todo == [] then 0 else (if todo[0].DropMachine? then 1 else 0) + Drops(todo[1..])
  }

  function Lists(todo: seq<Task>): nat {
    if todo == [] then 0 else (if todo[0].ListMachines? then 1 else 0) + Lists(todo[1..])
  }

  lemma {:induction false} CountsConcat(a: seq<Task>, b: seq<Task>)
    ensures Adds(a + b) == Adds(a) + Adds(b) && Drops(a + b) == Drops(a) + Drops(b)
    ensures Lists(a + b) == Lists(a) + Lists(b)
  {
    if a == [] {
      assert a + b == b;
    } else {
      CountsConcat(a[1..], b);
      assert (a + b)[1..] == a[1..] + b;
    }
  }

  predicate NoScaling(todo: seq<Task>) {
    forall t | t in todo :: !t.AddMachine? && !t.DropMachine? && !t.ListMachines?
  }

  lemma {:induction false} NothingToScale(todo: seq<Task>)
    requires NoScaling(todo)
    ensures Adds(todo) == 0 && Drops(todo) == 0 && Lists(todo) == 0
  {
    if todo != [] {
      assert todo[0] in todo && forall t | t in todo[1..] :: t in todo;
      NothingToScale(todo[1..]);
    }
  }

  lemma {:induction false} CountAdds(n: nat)
    ensures Adds(AddTasks(n)) == n && Drops(AddTasks(n)) == 0 && Lists(AddTasks(n)) == 0
  {
    if n > 0 {
      CountAdds(n - 1);
      assert AddTasks(n)[1..] == AddTasks(n - 1);
    }
  }

  lemma {:induction false} CountDrops(items: seq<MachineItem>, n: nat)
    requires n <= |items|
    ensures Drops(DropTasks(items, n)) == n && Adds(DropTasks(items, n)) == 0 && Lists(DropTasks(items, n)) == 0
  {
    if n > 0 {
      var last := |items| - 1;
      CountDrops(items[..last], n - 1);
      assert DropTasks(items, n)[1..] == DropTasks(items[..last], n - 1);
    }
  }

  lemma NewReconcileScalesNothing(blocks: seq<Block>)
    ensures var todo := ControlPlaneTasks(blocks); Adds(todo) == 0 && Drops(todo) == 0 && Lists(todo) == 1
  {
    var tree, rest := TreeTasks(blocks), [PutSA, PutKubeconfig, ListMachines, CountMachines];
    TreeIsCertificateTasks(blocks);
    CountsConcat(tree, rest);
    NothingToScale(tree);
    CountsConcat([PutSA, PutKubeconfig], [ListMachines] + [CountMachines]);
    CountsConcat([ListMachines], [CountMachines]);
    NothingToScale([PutSA, PutKubeconfig]);
    NothingToScale([CountMachines]);
    assert rest == [PutSA, PutKubeconfig] + ([ListMachines] + [CountMachines]);
    assert [ListMachines][1..] == [];
  }

  // What a reconcile with these tasks left, if its calls succeed, does to this many machines.
  function Heading(todo: seq<Task>, machines: nat): int {
    machines + Adds(todo) - Drops(todo)
  }

  // It heads for the target at most, and for the target exactly unless a call of it has failed.
  predicate OnCourse(todo: seq<Task>, machines: nat, replicas: int32, failed: bool) {
    && (Adds(todo) > 0 ==> Drops(todo) == 0 && Heading(todo, machines) <= replicas)
    && (Drops(todo) > 0 ==> Adds(todo) == 0 && Heading(todo, machines) >= replicas)
    && Lists(todo) <= 1 && (Lists(todo) == 1 ==> Adds(todo) == 0 && Drops(todo) == 0)
    && (Lists(todo) == 0 && !failed ==> Heading(todo, machines) == replicas)
  }

  // A call of reconcile p has failed in these events, and the reconcile ignored it.
  predicate HasFailed(log: seq<Event>, p: Pid) {
    CallFailed(p) in log
  }

  ghost predicate Steady(s: Sys, latest: Option<Pid>, log: seq<Event>, replicas: int32) {
    latest.Some? ==>
      var p := latest.value;
      && IsControlPlane(s, p) && s.procs[p].actor.replicas == replicas
      && OnCourse(s.procs[p].todo, |s.machines|, replicas, HasFailed(log, p))
  }

  // The number of machines moves by `steps` towards the target, and not past it.
  predicate Approaches(before: nat, after: nat, replicas: int32, steps: nat) {
    if before <= replicas then after == before + steps && after <= replicas
    else after == before - steps && after >= replicas
  }

  predicate Scales(e: Event) {
    e.MachineAdded? || e.MachineDropped?
  }

  // How many scaling calls succeeded.
  function ScalingCalls(cfg: Config, from: Sys, log: seq<Event>): nat {
    if log == [] then 0
    else
      var n := |log| - 1;
      ScalingCalls(cfg, from, log[..n]) +
      if Scales(log[n]) && Enabled(cfg, Run(cfg, from, log[..n]), log[n]) then 1 else 0
  }

  // --- Steps ----------------------------------------------------------------------------------------------

  // The machines change only by scaling calls, if nobody else changes them.
  lemma MachinesChange(cfg: Config, s: Sys, e: Event)
    requires Safe(cfg, s) && Enabled(cfg, s, e) && !e.ForeignMachine? && !e.MachineVanished?
    ensures |Apply(cfg, s, e).machines| ==
            |s.machines| + (if e.MachineAdded? then 1 else 0) - (if e.MachineDropped? then 1 else 0)
  {
    hide Apply, MachinesAfter, Safe;
    MachineFields(cfg, s, e);
    MachinesAfterCases(cfg, s, e);
    if e.MachineAdded? {
      UnusedUid(cfg, s);
      OneMoreMachine(s.machines, s.nextUid, Machine(cfg.kcp, false, []));
    } else if e.MachineDropped? {
      OneMachineLess(s.machines, Current(s, e.p).victim);
    } else {
      SameSize(MachinesAfter(cfg, s, e), s.machines);
    }
  }

  lemma MachinesAfterCases(cfg: Config, s: Sys, e: Event)
    requires Enabled(cfg, s, e) && !e.ForeignMachine? && !e.MachineVanished?
    ensures e.MachineAdded? ==> MachinesAfter(cfg, s, e) == s.machines[s.nextUid := Machine(cfg.kcp, false, [])]
    ensures e.MachineDropped? ==> MachinesAfter(cfg, s, e) == s.machines - {Current(s, e.p).victim}
    ensures !e.MachineAdded? && !e.MachineDropped? ==> MachinesAfter(cfg, s, e).Keys == s.machines.Keys
  {
  }

  lemma UnusedUid(cfg: Config, s: Sys)
    requires Safe(cfg, s)
    ensures s.nextUid !in s.machines
  {
  }

  lemma OneMoreMachine(machines: map<Uid, Machine>, m: Uid, x: Machine)
    requires m !in machines
    ensures |machines[m := x]| == |machines| + 1
  {
    assert machines[m := x].Keys == machines.Keys + {m};
    assert |machines[m := x].Keys| == |machines.Keys| + 1;
  }

  lemma OneMachineLess(machines: map<Uid, Machine>, m: Uid)
    requires m in machines
    ensures |machines - {m}| == |machines| - 1
  {
    assert (machines - {m}).Keys == machines.Keys - {m};
    assert |(machines - {m}).Keys| == |machines.Keys| - 1;
  }

  lemma SameSize(a: map<Uid, Machine>, b: map<Uid, Machine>)
    requires a.Keys == b.Keys
    ensures |a| == |b|
  {
    assert |a.Keys| == |b.Keys|;
  }

  lemma OtherUnfolding(cfg: Config, s: Sys, e: Event)
    requires Enabled(cfg, s, e) && By(e).Some? && IsControlPlane(s, e.p) && !e.MachinesListed?
    ensures NoScaling(Unfolded(cfg, s, e))
  {
  }

  lemma CountsAfter(todo: seq<Task>, more: seq<Task>)
    requires todo != [] && NoScaling(more)
    ensures Adds(more + todo[1..]) == Adds(todo) - (if todo[0].AddMachine? then 1 else 0)
    ensures Drops(more + todo[1..]) == Drops(todo) - (if todo[0].DropMachine? then 1 else 0)
    ensures Lists(more + todo[1..]) == Lists(todo) - (if todo[0].ListMachines? then 1 else 0)
  {
    CountsConcat(more, todo[1..]);
    NothingToScale(more);
  }

  lemma ListingCounts(items: seq<MachineItem>, machines: map<Uid, Machine>, rest: seq<Task>, replicas: int32)
    requires ListsMachines(items, machines) && |machines| <= MAX && replicas >= 0
    requires Adds(rest) == 0 && Drops(rest) == 0 && Lists(rest) == 0
    ensures OnCourse(ScaleTasks(items, replicas) + rest, |machines|, replicas, false)
  {
    hide ListsMachines, Narrow, AddTasks, DropTasks, Adds, Drops, Lists;
    ListCounts(items, machines);
    var tasks := ScaleTasks(items, replicas);
    CountsConcat(tasks, rest);
    if |items| < replicas {
      CountAdds(replicas - |items|);
    } else {
      CountDrops(items, |items| - replicas);
    }
  }

  lemma ControlStep(cfg: Config, s: Sys, e: Event, p: Pid)
    requires Enabled(cfg, s, e) && By(e) == Some(p) && IsControlPlane(s, p)
    ensures p in Apply(cfg, s, e).procs && Apply(cfg, s, e).procs[p].actor == s.procs[p].actor
    ensures Apply(cfg, s, e).procs[p].todo ==
            if e.SecretMissing? then s.procs[p].todo else Unfolded(cfg, s, e) + s.procs[p].todo[1..]
  {
  }

  lemma CallsAndTasks(cfg: Config, s: Sys, e: Event, p: Pid)
    requires AllTyped(cfg, s) && Enabled(cfg, s, e) && By(e) == Some(p) && IsControlPlane(s, p) && !e.SecretMissing?
    ensures At(s, p)
    ensures Current(s, p).AddMachine? <==> e.MachineAdded? || (e.CallFailed? && Current(s, p).AddMachine?)
    ensures Current(s, p).DropMachine? <==> e.MachineDropped? || (e.CallFailed? && Current(s, p).DropMachine?)
    ensures Current(s, p).ListMachines? <==> e.MachinesListed?
    ensures e.CallFailed? ==> Current(s, p).AddMachine? || Current(s, p).DropMachine?
  {
    assert Typed(cfg, s.procs[p]);
  }

  lemma FailureStays(log: seq<Event>, e: Event, p: Pid)
    ensures HasFailed(log, p) ==> HasFailed(log + [e], p)
    ensures e == CallFailed(p) ==> HasFailed(log + [e], p)
  {
    assert e in log + [e];
    assert forall x | x in log :: x in log + [e];
  }

  // A step of the reconcile that started last.
  lemma OwnStepKeepsSteady(cfg: Config, s: Sys, e: Event, p: Pid, log: seq<Event>, replicas: int32)
    requires Safe(cfg, s) && Steady(s, Some(p), log, replicas) && |s.machines| <= MAX && replicas >= 0
    requires Enabled(cfg, s, e) && By(e) == Some(p) && Allows(s, e, Some(p), replicas)
    ensures Steady(Apply(cfg, s, e), Some(p), log + [e], replicas)
    ensures Approaches(|s.machines|, |Apply(cfg, s, e).machines|, replicas, if Scales(e) then 1 else 0)
  {
    hide Safe, Apply, Adds, Drops, Lists, ListsMachines, ScaleTasks, AllTyped, Enabled, Unfolded, HasFailed, NoScaling;
    var todo := s.procs[p].todo;
    SafeIsTyped(cfg, s);
    ControlStep(cfg, s, e, p);
    MachinesChange(cfg, s, e);
    FailureStays(log, e, p);
    if !e.SecretMissing? {
      CallsAndTasks(cfg, s, e, p);
      if e.MachinesListed? {
        ListedUnfolds(cfg, s, e);
        BeforeListing(todo, |s.machines|, replicas, HasFailed(log, p));
        ListingCounts(e.items, s.machines, todo[1..], replicas);
      } else {
        OtherUnfolding(cfg, s, e);
        CountsAfter(todo, Unfolded(cfg, s, e));
        AtMost(todo);
      }
    }
  }

  lemma ListedUnfolds(cfg: Config, s: Sys, e: Event)
    requires Enabled(cfg, s, e) && e.MachinesListed? && IsControlPlane(s, e.p)
    ensures Unfolded(cfg, s, e) == ScaleTasks(e.items, s.procs[e.p].actor.replicas)
  {
  }

  lemma BeforeListing(todo: seq<Task>, machines: nat, replicas: int32, failed: bool)
    requires todo != [] && todo[0].ListMachines? && OnCourse(todo, machines, replicas, failed)
    ensures Lists(todo[1..]) == 0 && Adds(todo[1..]) == 0 && Drops(todo[1..]) == 0
  {
  }

  lemma AtMost(todo: seq<Task>)
    requires todo != []
    ensures todo[0].AddMachine? ==> Adds(todo) > 0
    ensures todo[0].DropMachine? ==> Drops(todo) > 0
  {
  }

  // A step of anything else.
  lemma OtherStepKeepsSteady(cfg: Config, s: Sys, e: Event, latest: Option<Pid>, log: seq<Event>, replicas: int32)
    requires Safe(cfg, s) && Steady(s, latest, log, replicas) && Enabled(cfg, s, e)
    requires Allows(s, e, latest, replicas) && !e.StartControlPlane? && (latest.Some? ==> By(e) != latest)
    ensures Steady(Apply(cfg, s, e), latest, log + [e], replicas) && !Scales(e)
    ensures |Apply(cfg, s, e).machines| == |s.machines|
  {
    hide Safe, Apply, Adds, Drops, Lists, ListsMachines, AllTyped, Enabled, HasFailed;
    SafeIsTyped(cfg, s);
    OnlyControlPlanesScale(cfg, s, e);
    MachinesChange(cfg, s, e);
    if latest.Some? {
      FailureStays(log, e, latest.value);
      NoNewFailure(log, e, latest.value);
      OthersStay(cfg, s, e, latest.value);
    }
  }

  lemma OnlyControlPlanesScale(cfg: Config, s: Sys, e: Event)
    requires AllTyped(cfg, s) && Enabled(cfg, s, e)
    ensures Scales(e) ==> IsControlPlane(s, e.p)
  {
    if Scales(e) {
      assert Typed(cfg, s.procs[e.p]);
    }
  }

  lemma NoNewFailure(log: seq<Event>, e: Event, p: Pid)
    requires By(e) != Some(p)
    ensures HasFailed(log + [e], p) ==> HasFailed(log, p)
  {
  }

  lemma OthersStay(cfg: Config, s: Sys, e: Event, p: Pid)
    requires p in s.procs && Enabled(cfg, s, e) && By(e) != Some(p)
    ensures p in Apply(cfg, s, e).procs && Apply(cfg, s, e).procs[p] == s.procs[p]
  {
  }

  lemma StartedIsSteady(cfg: Config, s: Sys, e: Event, log: seq<Event>, replicas: int32)
    requires Safe(cfg, s) && Enabled(cfg, s, e) && e.StartControlPlane? && e.replicas == replicas
    ensures Steady(Apply(cfg, s, e), Some(e.p), log + [e], replicas)
    ensures |Apply(cfg, s, e).machines| == |s.machines|
  {
    hide Safe, ControlPlaneTasks, Adds, Drops, Lists, HasFailed;
    NewReconcileScalesNothing(e.blocks);
    assert Apply(cfg, s, e).procs[e.p].todo == ControlPlaneTasks(e.blocks);
  }

  lemma StepKeepsSteady(cfg: Config, s: Sys, e: Event, latest: Option<Pid>, log: seq<Event>, replicas: int32)
    requires Safe(cfg, s) && Steady(s, latest, log, replicas) && |s.machines| <= MAX && replicas >= 0
    requires Allows(s, e, latest, replicas)
    ensures Steady(Next(cfg, s, e), if e.StartControlPlane? && Enabled(cfg, s, e) then Some(e.p) else latest, log + [e],
                   replicas)
    ensures Approaches(|s.machines|, |Next(cfg, s, e).machines|, replicas,
                       if Scales(e) && Enabled(cfg, s, e) then 1 else 0)
  {
    hide Safe, Apply, Steady, Enabled;
    if !Enabled(cfg, s, e) {
      NothingHappens(cfg, s, e, latest, log, replicas);
    } else if e.StartControlPlane? {
      StartedIsSteady(cfg, s, e, log, replicas);
    } else if latest.Some? && By(e) == latest {
      LatestIsControl(s, latest.value, log, replicas);
      OwnStepKeepsSteady(cfg, s, e, latest.value, log, replicas);
    } else {
      OtherStepKeepsSteady(cfg, s, e, latest, log, replicas);
    }
  }

  lemma LatestIsControl(s: Sys, p: Pid, log: seq<Event>, replicas: int32)
    requires Steady(s, Some(p), log, replicas)
    ensures IsControlPlane(s, p)
  {
  }

  lemma NothingHappens(cfg: Config, s: Sys, e: Event, latest: Option<Pid>, log: seq<Event>, replicas: int32)
    requires Steady(s, latest, log, replicas) && !Enabled(cfg, s, e)
    ensures Next(cfg, s, e) == s && Steady(s, latest, log + [e], replicas)
  {
    hide Adds, Drops, Lists, HasFailed;
    if latest.Some? {
      FailureStays(log, e, latest.value);
    }
  }

  // --- Runs -----------------------------------------------------------------------------------------------

  lemma StepOfRun(cfg: Config, from: Sys, log: seq<Event>)
    requires log != []
    ensures var n := |log| - 1;
            && Run(cfg, from, log) == Next(cfg, Run(cfg, from, log[..n]), log[n])
            && log == log[..n] + [log[n]]
  {
  }

  lemma {:induction false} RunApproaches(cfg: Config, from: Sys, log: seq<Event>, replicas: int32)
    requires WellFormed(cfg) && Safe(cfg, from) && |from.machines| <= MAX && replicas >= 0
    requires Undisturbed(cfg, from, log, replicas)
    ensures Steady(Run(cfg, from, log), LatestControl(cfg, from, log), log, replicas)
    ensures Approaches(|from.machines|, |Run(cfg, from, log).machines|, replicas, ScalingCalls(cfg, from, log))
  {
    hide Safe, WellFormed, Next, Steady, Run, Allows, Enabled;
    if log == [] {
      Unmoved(cfg, from, replicas);
    } else {
      var n := |log| - 1;
      RunApproaches(cfg, from, log[..n], replicas);
      RunKeepsSafe(cfg, from, log[..n]);
      StepOfRun(cfg, from, log);
      StepKeepsSteady(cfg, Run(cfg, from, log[..n]), log[n], LatestControl(cfg, from, log[..n]), log[..n], replicas);
    }
  }

  lemma Unmoved(cfg: Config, from: Sys, replicas: int32)
    ensures Run(cfg, from, []) == from && Steady(from, None, [], replicas)
  {
  }

  /** From any reachable state, over any stretch of a run in which reconciles of the control plane do not overlap,
      their lists are current and nobody else adds or removes machines: the number of machines moves towards the
      target by exactly the scaling calls that succeeded, and never past it. */
  lemma ScalingConverges(cfg: Config, log: seq<Event>, more: seq<Event>, replicas: int32)
    requires WellFormed(cfg) && replicas >= 0 && |Run(cfg, InitialState(), log).machines| <= MAX
    requires Undisturbed(cfg, Run(cfg, InitialState(), log), more, replicas)
    ensures var s := Run(cfg, InitialState(), log);
            Approaches(|s.machines|, |Run(cfg, InitialState(), log + more).machines|, replicas,
                       ScalingCalls(cfg, s, more))
  {
    hide Run, Safe, WellFormed, Undisturbed, ScalingCalls;
    EveryRunIsSafe(cfg, log);
    RunApproaches(cfg, Run(cfg, InitialState(), log), more, replicas);
    RunAppend(cfg, InitialState(), log, more);
  }

  /** When the reconcile that started last in such a stretch has no scaling call left and none of its calls failed,
      the number of machines is the target. */
  lemma ScalingLands(cfg: Config, log: seq<Event>, more: seq<Event>, replicas: int32, p: Pid)
    requires WellFormed(cfg) && replicas >= 0 && |Run(cfg, InitialState(), log).machines| <= MAX
    requires Undisturbed(cfg, Run(cfg, InitialState(), log), more, replicas)
    requires LatestControl(cfg, Run(cfg, InitialState(), log), more) == Some(p) && !HasFailed(more, p)
    requires var s := Run(cfg, InitialState(), log + more); p in s.procs ==> NoScaling(s.procs[p].todo)
    ensures |Run(cfg, InitialState(), log + more).machines| == replicas
  {
    hide Run, Safe, WellFormed, Undisturbed, ScalingCalls, LatestControl, Adds, Drops, Lists, NoScaling;
    EveryRunIsSafe(cfg, log);
    RunApproaches(cfg, Run(cfg, InitialState(), log), more, replicas);
    RunAppend(cfg, InitialState(), log, more);
    var s := Run(cfg, InitialState(), log + more);
    NothingToScale(s.procs[p].todo);
  }
}
