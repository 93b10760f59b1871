/** The pods of one machine in runs of the whole system, call by call: other machines, control planes and pod
    phases interleave freely, but two reconciles of the same machine do not overlap. */
module PodRuns {
  import opened Collections
  import opened Protocol
  import opened Typing
  import opened Safety
  import opened Readiness
  import opened PodPasses

  predicate Reconciles(s: Sys, p: Pid, m: Uid) {
    IsMachine(s, p) && s.procs[p].actor.uid == m
  }

  predicate Starts(cfg: Config, s: Sys, e: Event, m: Uid) {
    e.StartMachine? && e.uid == m && Enabled(cfg, s, e)
  }

  // The reconcile of machine m that started last in a run from some state.
  function Latest(cfg: Config, from: Sys, log: seq<Event>, m: Uid): Option<Pid> {
    if log == [] then None
    else
      var n := |log| - 1;
      if Starts(cfg, Run(cfg, from, log[..n]), log[n], m) then Some(log[n].p) else Latest(cfg, from, log[..n], m)
  }

  // In this run, only the reconcile of machine m that started last takes steps.
  ghost predicate OneAtATime(cfg: Config, from: Sys, log: seq<Event>, m: Uid) {
    log == [] || (
      var n := |log| - 1;
      && OneAtATime(cfg, from, log[..n], m)
      && forall p | By(log[n]) == Some(p) && Reconciles(Run(cfg, from, log[..n]), p, m) ::
           Latest(cfg, from, log[..n], m) == Some(p))
  }

  // A list of tasks that will create no pod for a role that has one, and no two for one role.
  predicate PlansApart(todo: seq<Task>, owned: set<string>) {
    && (forall i | 0 <= i < |todo| && todo[i].MakePod? :: todo[i].role !in owned)
    && (forall i, j | 0 <= i < j < |todo| && todo[i].MakePod? && todo[j].MakePod? :: todo[i].role != todo[j].role)
    && (forall i | 0 <= i < |todo| && todo[i].ListPods? :: i == 0 && forall j | 0 <= j < |todo| :: !todo[j].MakePod?)
  }

  predicate Tidy(s: Sys, m: Uid, latest: Option<Pid>) {
    latest.Some? ==> Reconciles(s, latest.value, m) && PlansApart(s.procs[latest.value].todo, OwnedRoles(s.pods, m))
  }

  function OwnedPods(pods: map<Uid, Pod>, m: Uid): set<Uid> {
    set u | u in pods && Owned(pods[u], m)
  }

  // No role has got a second pod, and every pod made for the machine covers one role that was missing.
  ghost predicate OneForOne(before: map<Uid, Pod>, after: map<Uid, Pod>, m: Uid, table: Table) {
    && (OnePodPerRole(before, m, table) ==> OnePodPerRole(after, m, table))
    && |OwnedPods(after, m)| + |MissingRoles(after, m, table)|
       == |OwnedPods(before, m)| + |MissingRoles(before, m, table)|
  }

  lemma {:induction false} MakesPlanned(order: seq<string>, found: set<string>, i: nat)
    requires i < |MakeTasks(order, found)|
    ensures var t := MakeTasks(order, found)[i]; t.MakePod? && t.role in order && t.role !in found
  {
    if order[0] in found {
      MakesPlanned(order[1..], found, i);
    } else if i > 0 {
      MakesPlanned(order[1..], found, i - 1);
    }
  }

  lemma {:induction false} MakesApart(order: seq<string>, found: set<string>, i: nat, j: nat)
    requires NoRepeats(order) && i < j < |MakeTasks(order, found)|
    ensures MakeTasks(order, found)[i].MakePod? && MakeTasks(order, found)[j].MakePod?
    ensures MakeTasks(order, found)[i].role != MakeTasks(order, found)[j].role
  {
    if order[0] in found {
      MakesApart(order[1..], found, i, j);
    } else if i > 0 {
      MakesApart(order[1..], found, i - 1, j - 1);
    } else {
      MakesPlanned(order[1..], found, j - 1);
    }
  }

  lemma ListingPlansApart(order: seq<string>, rest: seq<Task>, owned: set<string>)
    requires NoRepeats(order) && forall i | 0 <= i < |rest| :: !rest[i].MakePod? && !rest[i].ListPods?
    ensures PlansApart(MakeTasks(order, owned) + rest, owned)
  {
    var makes := MakeTasks(order, owned);
    var todo := makes + rest;
    forall i | 0 <= i < |makes| ensures todo[i].MakePod? && todo[i].role !in owned {
      MakesPlanned(order, owned, i);
    }
    forall i, j | 0 <= i < j < |todo| && todo[i].MakePod? && todo[j].MakePod? ensures todo[i].role != todo[j].role {
      assert i < |makes| && j < |makes|;
      MakesApart(order, owned, i, j);
    }
    assert forall i | |makes| <= i < |todo| :: todo[i] == rest[i - |makes|];
  }

  // --- Events that are not the machine's ------------------------------------------------------------------

  // Anything but a pod made by a reconcile of machine m leaves its pods alone.
  lemma OthersActElsewhere(cfg: Config, s: Sys, e: Event, m: Uid)
    requires PodsBelong(cfg, s)
    requires e.PodMade? ==> !Reconciles(s, e.p, m)
    ensures Elsewhere(s.pods, Next(cfg, s, e).pods, m)
  {
    assert s.nextUid !in s.pods;
  }

  lemma ElsewhereKeepsOnePodPerRole(before: map<Uid, Pod>, after: map<Uid, Pod>, m: Uid, table: Table)
    requires Elsewhere(before, after, m) && OnePodPerRole(before, m, table)
    ensures OnePodPerRole(after, m, table)
  {
    forall u | u in after && Owned(after[u], m)
      ensures u in before && Owned(before[u], m) && before[u].labels == after[u].labels
    {
      if u in before {
        assert after[u] == before[u].(phase := after[u].phase);
      }
    }
  }

  lemma OtherProcsStay(cfg: Config, s: Sys, e: Event, p: Pid)
    requires p in s.procs && By(e) != Some(p)
    ensures p in Next(cfg, s, e).procs && Next(cfg, s, e).procs[p] == s.procs[p]
  {
  }

  // --- Events of the machine's reconcile ------------------------------------------------------------------

  lemma MadePodIsTheFirst(before: map<Uid, Pod>, next: Uid, m: Uid, table: Table, role: string)
    requires RoleCoherent(table) && role in table && next !in before && role !in OwnedRoles(before, m)
    ensures var after := before[next := FromTemplate(m, table[role])];
            && (OnePodPerRole(before, m, table) ==> OnePodPerRole(after, m, table))
            && OwnedRoles(after, m) == OwnedRoles(before, m) + {role}
            && OwnedPods(after, m) == OwnedPods(before, m) + {next} && next !in OwnedPods(before, m)
  {
    var after := before[next := FromTemplate(m, table[role])];
    assert RoleOf(after[next].labels) == Some(role);
    assert forall u | u in before :: after[u] == before[u];
    forall u | u in before && Owned(before[u], m) ensures RoleOf(before[u].labels) != Some(role) {
    }
    assert role in OwnedRoles(after, m) by {
      assert Owned(after[next], m) && ROLE_LABEL in after[next].labels;
    }
    forall r | r in OwnedRoles(before, m) ensures r in OwnedRoles(after, m) {
      var u :| u in before && Owned(before[u], m) && ROLE_LABEL in before[u].labels &&
               before[u].labels[ROLE_LABEL] == r;
      assert after[u] == before[u];
    }
  }

  lemma OneMorePod(before: map<Uid, Pod>, next: Uid, m: Uid, table: Table, role: string)
    requires RoleCoherent(table) && role in table && next !in before && role !in OwnedRoles(before, m)
    ensures OneForOne(before, before[next := FromTemplate(m, table[role])], m, table)
  {
    hide OwnedRoles, OwnedPods, OnePodPerRole, RoleCoherent;
    MadePodIsTheFirst(before, next, m, table, role);
    var missing := MissingRoles(before, m, table);
    assert MissingRoles(before[next := FromTemplate(m, table[role])], m, table) == missing - {role};
    DifferenceSize(missing, {role});
  }

  lemma SameForSame(before: map<Uid, Pod>, after: map<Uid, Pod>, m: Uid, table: Table)
    requires Elsewhere(before, after, m)
    ensures OneForOne(before, after, m, table)
  {
    ElsewhereKeepsRoles(before, after, m);
    ElsewhereKeepsOwnedPods(before, after, m);
    hide OwnedRoles, OwnedPods, OnePodPerRole, Elsewhere;
    if OnePodPerRole(before, m, table) {
      ElsewhereKeepsOnePodPerRole(before, after, m, table);
    }
  }

  lemma ElsewhereKeepsOwnedPods(before: map<Uid, Pod>, after: map<Uid, Pod>, m: Uid)
    requires Elsewhere(before, after, m)
    ensures OwnedPods(after, m) == OwnedPods(before, m)
  {
    assert forall u | u in before :: after[u] == before[u].(phase := after[u].phase);
  }

  lemma RestIsPlanned(todo: seq<Task>, owned: set<string>)
    requires todo != [] && todo[0].MakePod? && PlansApart(todo, owned)
    ensures todo[0].role !in owned && PlansApart(todo[1..], owned + {todo[0].role})
  {
    assert forall i | 0 <= i < |todo| - 1 :: todo[1..][i] == todo[i + 1];
    forall i | 0 <= i < |todo| ensures !todo[i].ListPods? {
    }
  }

  lemma OtherRestIsPlanned(todo: seq<Task>, more: seq<Task>, owned: set<string>)
    requires todo != [] && PlansApart(todo, owned)
    requires forall i | 0 <= i < |more| :: !more[i].MakePod? && !more[i].ListPods?
    ensures PlansApart(more + todo[1..], owned)
  {
    var n := |more|;
    var todo' := more + todo[1..];
    assert forall i | n <= i < |todo'| :: todo'[i] == todo[i - n + 1];
  }

  // A step of the machine's own reconcile.
  lemma OwnStepKeepsTidy(cfg: Config, s: Sys, e: Event, m: Uid, p: Pid)
    requires RoleCoherent(cfg.table) && AllTyped(cfg, s) && PodsBelong(cfg, s)
    requires Tidy(s, m, Some(p)) && By(e) == Some(p) && Enabled(cfg, s, e)
    ensures Tidy(Apply(cfg, s, e), m, Some(p)) && OneForOne(s.pods, Apply(cfg, s, e).pods, m, cfg.table)
  {
    hide OwnedRoles, PlansApart, OnePodPerRole, OwnedPods, MissingRoles, RoleCoherent, AllTyped, PodsBelong, OneForOne;
    var pr, owned := s.procs[p], OwnedRoles(s.pods, m);
    if e.PodMade? {
      PodUidIsNew(cfg, s);
      RestIsPlanned(pr.todo, owned);
      MadePodIsTheFirst(s.pods, s.nextUid, m, cfg.table, pr.todo[0].role);
      OneMorePod(s.pods, s.nextUid, m, cfg.table, pr.todo[0].role);
      assert [] + pr.todo[1..] == pr.todo[1..];
    } else {
      NothingIsElsewhere(s.pods, m);
      SameForSame(s.pods, s.pods, m, cfg.table);
      if e.PodsListed? {
        OrderHasNoRepeats(cfg, s, p);
        ListingTailIsPlain(pr.todo, owned);
        ListingPlansApart(pr.actor.order, pr.todo[1..], owned);
      } else if !e.SecretMissing? {
        PlainUnfolding(cfg, s, e);
        OtherRestIsPlanned(pr.todo, Unfolded(cfg, s, e), owned);
      }
    }
  }

  lemma OrderHasNoRepeats(cfg: Config, s: Sys, p: Pid)
    requires AllTyped(cfg, s) && IsMachine(s, p)
    ensures NoRepeats(s.procs[p].actor.order)
  {
    assert Typed(cfg, s.procs[p]);
  }

  lemma ListingTailIsPlain(todo: seq<Task>, owned: set<string>)
    requires todo != [] && todo[0].ListPods? && PlansApart(todo, owned)
    ensures forall i | 0 <= i < |todo| - 1 :: !todo[1..][i].MakePod? && !todo[1..][i].ListPods?
  {
    assert forall i | 0 <= i < |todo| - 1 :: todo[1..][i] == todo[i + 1];
  }

  lemma PlainUnfolding(cfg: Config, s: Sys, e: Event)
    requires Enabled(cfg, s, e) && By(e).Some? && IsMachine(s, e.p) && !e.PodsListed?
    ensures forall i | 0 <= i < |Unfolded(cfg, s, e)| ::
              !Unfolded(cfg, s, e)[i].MakePod? && !Unfolded(cfg, s, e)[i].ListPods?
  {
  }

  lemma PodUidIsNew(cfg: Config, s: Sys)
    requires PodsBelong(cfg, s)
    ensures s.nextUid !in s.pods
  {
  }

  // --- Runs -----------------------------------------------------------------------------------------------

  lemma StartedIsTidy(cfg: Config, s: Sys, e: Event, m: Uid)
    requires Starts(cfg, s, e, m)
    ensures Tidy(Next(cfg, s, e), m, Some(e.p)) && Next(cfg, s, e).pods == s.pods
  {
    hide OwnedRoles;
    assert Next(cfg, s, e).procs[e.p].todo == MachineTasks();
  }

  lemma OtherStepKeepsTidy(cfg: Config, s: Sys, e: Event, m: Uid, latest: Option<Pid>)
    requires PodsBelong(cfg, s) && Tidy(s, m, latest)
    requires e.PodMade? ==> !Reconciles(s, e.p, m)
    requires latest.Some? ==> By(e) != latest
    ensures Tidy(Next(cfg, s, e), m, latest) && OneForOne(s.pods, Next(cfg, s, e).pods, m, cfg.table)
  {
    hide OnePodPerRole, OwnedRoles, Elsewhere, PlansApart, PodsBelong, Next, OneForOne;
    OthersActElsewhere(cfg, s, e, m);
    SameForSame(s.pods, Next(cfg, s, e).pods, m, cfg.table);
    ElsewhereKeepsRoles(s.pods, Next(cfg, s, e).pods, m);
    if latest.Some? {
      OtherProcsStay(cfg, s, e, latest.value);
    }
  }

  lemma StepKeepsTidy(cfg: Config, s: Sys, e: Event, m: Uid, latest: Option<Pid>)
    requires RoleCoherent(cfg.table) && Safe(cfg, s) && Tidy(s, m, latest)
    requires forall p | By(e) == Some(p) && Reconciles(s, p, m) :: latest == Some(p)
    ensures Tidy(Next(cfg, s, e), m, if Starts(cfg, s, e, m) then Some(e.p) else latest)
    ensures OneForOne(s.pods, Next(cfg, s, e).pods, m, cfg.table)
  {
    hide OnePodPerRole, OwnedRoles, PlansApart, RoleCoherent, AllTyped, PodsBelong, Apply, Enabled, OneForOne;
    assert AllTyped(cfg, s) && PodsBelong(cfg, s);
    NothingIsElsewhere(s.pods, m);
    SameForSame(s.pods, s.pods, m, cfg.table);
    if Starts(cfg, s, e, m) {
      StartedIsTidy(cfg, s, e, m);
    } else if !Enabled(cfg, s, e) {
      assert Next(cfg, s, e) == s;
    } else if latest.Some? && By(e) == latest {
      OwnStepKeepsTidy(cfg, s, e, m, latest.value);
    } else {
      OtherStepKeepsTidy(cfg, s, e, m, latest);
    }
  }

  lemma {:induction false} RunKeepsTidy(cfg: Config, from: Sys, log: seq<Event>, m: Uid)
    requires WellFormed(cfg) && RoleCoherent(cfg.table) && Safe(cfg, from) && OneAtATime(cfg, from, log, m)
    ensures Tidy(Run(cfg, from, log), m, Latest(cfg, from, log, m))
    ensures OneForOne(from.pods, Run(cfg, from, log).pods, m, cfg.table)
  {
    hide Safe, Tidy, RoleCoherent, WellFormed, OneForOne;
    if log == [] {
      NobodyIsTidy(from, m);
      NothingIsElsewhere(from.pods, m);
      SameForSame(from.pods, from.pods, m, cfg.table);
    } else {
      var n := |log| - 1;
      RunKeepsTidy(cfg, from, log[..n], m);
      RunKeepsSafe(cfg, from, log[..n]);
      StepKeepsTidy(cfg, Run(cfg, from, log[..n]), log[n], m, Latest(cfg, from, log[..n], m));
      OneForOneTwice(from.pods, Run(cfg, from, log[..n]).pods, Run(cfg, from, log).pods, m, cfg.table);
    }
  }

  lemma NobodyIsTidy(s: Sys, m: Uid)
    ensures Tidy(s, m, None)
  {
  }

  lemma OneForOneTwice(a: map<Uid, Pod>, b: map<Uid, Pod>, c: map<Uid, Pod>, m: Uid, table: Table)
    requires OneForOne(a, b, m, table) && OneForOne(b, c, m, table)
    ensures OneForOne(a, c, m, table)
  {
    hide OnePodPerRole, OwnedPods, MissingRoles;
  }

  lemma NoPodsYet(m: Uid, table: Table)
    ensures OnePodPerRole(map[], m, table)
    ensures OwnedPods(map[], m) == {} && MissingRoles(map[], m, table) == table.Keys
  {
  }

  lemma StartIsSafe(cfg: Config)
    ensures Safe(cfg, InitialState())
  {
  }

  /** However the calls of all reconciles interleave, a machine has at most one pod for each role, provided its
      own reconciles do not overlap. */
  lemma NeverTwoPodsForARole(cfg: Config, log: seq<Event>, m: Uid)
    requires WellFormed(cfg) && RoleCoherent(cfg.table) && OneAtATime(cfg, InitialState(), log, m)
    ensures OnePodPerRole(Run(cfg, InitialState(), log).pods, m, cfg.table)
  {
    hide Run, Safe, OnePodPerRole, OwnedPods, MissingRoles;
    StartIsSafe(cfg);
    NoPodsYet(m, cfg.table);
    RunKeepsTidy(cfg, InitialState(), log, m);
  }

  /** In every such run the machine's pods and its missing roles together are exactly as many as the table has
      roles. */
  lemma PodsAndMissingRoles(cfg: Config, log: seq<Event>, m: Uid)
    requires WellFormed(cfg) && RoleCoherent(cfg.table) && OneAtATime(cfg, InitialState(), log, m)
    ensures var pods := Run(cfg, InitialState(), log).pods;
            |OwnedPods(pods, m)| + |MissingRoles(pods, m, cfg.table)| == |cfg.table|
  {
    hide Run, Safe, OnePodPerRole, OwnedPods, MissingRoles;
    StartIsSafe(cfg);
    NoPodsYet(m, cfg.table);
    RunKeepsTidy(cfg, InitialState(), log, m);
  }

  /** Whatever runs, a role that has a pod keeps one: what is missing only ever gets less. */
  lemma {:induction false} MissingNeverGrows(cfg: Config, log: seq<Event>, more: seq<Event>, m: Uid)
    requires WellFormed(cfg)
    ensures MissingRoles(Run(cfg, InitialState(), log + more).pods, m, cfg.table)
         <= MissingRoles(Run(cfg, InitialState(), log).pods, m, cfg.table)
    decreases |more|
  {
    hide Safe, MissingRoles, WellFormed, Run;
    if more == [] {
      assert log + more == log;
    } else {
      var n := |more| - 1;
      MissingNeverGrows(cfg, log, more[..n], m);
      EveryRunIsSafe(cfg, log + more[..n]);
      LastStep(cfg, log, more);
      MissingShrinks(cfg, Run(cfg, InitialState(), log + more[..n]), more[n], m);
    }
  }

  lemma LastStep(cfg: Config, log: seq<Event>, more: seq<Event>)
    requires more != []
    ensures Run(cfg, InitialState(), log + more)
         == Next(cfg, Run(cfg, InitialState(), log + more[..|more| - 1]), more[|more| - 1])
  {
    assert (log + more)[..|log + more| - 1] == log + more[..|more| - 1];
  }

  lemma MissingShrinks(cfg: Config, s: Sys, e: Event, m: Uid)
    requires Safe(cfg, s)
    ensures MissingRoles(Next(cfg, s, e).pods, m, cfg.table) <= MissingRoles(s.pods, m, cfg.table)
  {
    hide Safe, OwnedRoles, Covers;
    if Enabled(cfg, s, e) {
      forall role | role in OwnedRoles(s.pods, m) ensures role in OwnedRoles(Apply(cfg, s, e).pods, m) {
        PodsAreBelonging(cfg, s);
        OwnedRolesCovered(s.pods, m, role);
        PodsStay(cfg, s, e, m, role);
        CoveredIsOwned(Apply(cfg, s, e).pods, m, role);
      }
    }
  }

  lemma PodsAreBelonging(cfg: Config, s: Sys)
    requires Safe(cfg, s)
    ensures PodsBelong(cfg, s)
  {
  }

  lemma CoveredIsOwned(pods: map<Uid, Pod>, m: Uid, role: string)
    requires Covers(pods, m, role)
    ensures role in OwnedRoles(pods, m)
  {
    var u :| u in pods && Owned(pods[u], m) && RoleOf(pods[u].labels) == Some(role);
  }

  lemma ElsewhereTwice(a: map<Uid, Pod>, b: map<Uid, Pod>, c: map<Uid, Pod>, m: Uid)
    requires Elsewhere(a, b, m) && Elsewhere(b, c, m)
    ensures Elsewhere(a, c, m)
  {
    forall u | u in c && u !in a ensures !Owned(c[u], m) {
      if u in b {
        assert c[u] == b[u].(phase := c[u].phase);
      }
    }
    forall u | u in a ensures u in c && c[u] == a[u].(phase := c[u].phase) {
      assert c[u] == b[u].(phase := c[u].phase);
    }
  }

  /** Any stretch of a run in which the reconciles of machine m make no pod is, for its pods, one happening
      elsewhere. */
  lemma {:induction false} StretchIsElsewhere(cfg: Config, log: seq<Event>, more: seq<Event>, m: Uid)
    requires WellFormed(cfg)
    requires forall i | 0 <= i < |more| && more[i].PodMade? ::
               !Reconciles(Run(cfg, InitialState(), log + more[..i]), more[i].p, m)
    ensures Elsewhere(Run(cfg, InitialState(), log).pods, Run(cfg, InitialState(), log + more).pods, m)
    decreases |more|
  {
    hide Safe, WellFormed, Run, Elsewhere, PodsBelong, Reconciles, Next;
    if more == [] {
      assert log + more == log;
      NothingIsElsewhere(Run(cfg, InitialState(), log).pods, m);
    } else {
      var n := |more| - 1;
      var t := Run(cfg, InitialState(), log + more[..n]);
      assert forall i | 0 <= i < n :: more[..n][..i] == more[..i] && more[..n][i] == more[i];
      StretchIsElsewhere(cfg, log, more[..n], m);
      EveryRunIsSafe(cfg, log + more[..n]);
      PodsAreBelonging(cfg, t);
      LastStep(cfg, log, more);
      OthersActElsewhere(cfg, t, more[n], m);
      ElsewhereTwice(Run(cfg, InitialState(), log).pods, t.pods, Next(cfg, t, more[n]).pods, m);
    }
  }

  lemma NothingIsElsewhere(pods: map<Uid, Pod>, m: Uid)
    ensures Elsewhere(pods, pods, m)
  {
  }

  // --- Where pods come from -------------------------------------------------------------------------------

  // A pod made from one of the templates of a table, whatever its phase.
  predicate MadeFrom(table: Table, role: string, pod: Pod) {
    && role in table && pod.labels == table[role].labels
    && pod.image == table[role].image && pod.mounts == table[role].mounts
  }

  /** Every pod that a machine owns was made from a template. */
  lemma {:induction false} OwnedPodsAreMadeFromTemplates(cfg: Config, log: seq<Event>, u: Uid)
    requires u in Run(cfg, InitialState(), log).pods && Run(cfg, InitialState(), log).pods[u].owner.Some?
    ensures exists role :: MadeFrom(cfg.table, role, Run(cfg, InitialState(), log).pods[u])
  {
    var n := |log| - 1;
    var s := Run(cfg, InitialState(), log[..n]);
    if u in s.pods && s.pods[u].owner.Some? {
      OwnedPodsAreMadeFromTemplates(cfg, log[..n], u);
    }
    NewPodsAreMadeFromTemplates(cfg, s, log[n], u);
  }

  lemma NewPodsAreMadeFromTemplates(cfg: Config, s: Sys, e: Event, u: Uid)
    requires u in Next(cfg, s, e).pods && Next(cfg, s, e).pods[u].owner.Some?
    requires u in s.pods && s.pods[u].owner.Some? ==> exists role :: MadeFrom(cfg.table, role, s.pods[u])
    ensures exists role :: MadeFrom(cfg.table, role, Next(cfg, s, e).pods[u])
  {
    var pod := Next(cfg, s, e).pods[u];
    if u in s.pods && pod == s.pods[u].(phase := pod.phase) {
      var role :| MadeFrom(cfg.table, role, s.pods[u]);
      assert MadeFrom(cfg.table, role, pod);
    } else {
      assert e.PodMade?;
      assert MadeFrom(cfg.table, Current(s, e.p).role, pod);
    }
  }

  /** No machine ever has a pod that counts for a role which labels no template. */
  lemma UnlabelledIsNeverOwned(cfg: Config, log: seq<Event>, m: Uid, role: string)
    requires Unlabelled(cfg.table, role)
    ensures role !in OwnedRoles(Run(cfg, InitialState(), log).pods, m)
  {
    hide Run;
    var pods := Run(cfg, InitialState(), log).pods;
    forall u | u in pods && Owned(pods[u], m) ensures RoleOf(pods[u].labels) != Some(role) {
      OwnedPodsAreMadeFromTemplates(cfg, log, u);
      var t :| MadeFrom(cfg.table, t, pods[u]);
    }
  }

  // --- Pods and missing roles -----------------------------------------------------------------------------

  lemma {:induction false} OwnedPodsStay(cfg: Config, log: seq<Event>, more: seq<Event>, m: Uid)
    requires WellFormed(cfg)
    ensures OwnedPods(Run(cfg, InitialState(), log).pods, m) <= OwnedPods(Run(cfg, InitialState(), log + more).pods, m)
    decreases |more|
  {
    hide Run, WellFormed, Safe, PodsBelong, Next, OwnedPods;
    if more == [] {
      assert log + more == log;
    } else {
      var n := |more| - 1;
      OwnedPodsStay(cfg, log, more[..n], m);
      EveryRunIsSafe(cfg, log + more[..n]);
      PodsAreBelonging(cfg, Run(cfg, InitialState(), log + more[..n]));
      LastStep(cfg, log, more);
      OwnedPodsStep(cfg, Run(cfg, InitialState(), log + more[..n]), more[n], m);
    }
  }

  lemma OwnedPodsStep(cfg: Config, s: Sys, e: Event, m: Uid)
    requires PodsBelong(cfg, s)
    ensures OwnedPods(s.pods, m) <= OwnedPods(Next(cfg, s, e).pods, m)
  {
    assert s.nextUid !in s.pods;
  }

  /** From any reachable state, duplicate pods included: over any stretch of a run in which the machine's
      reconciles do not overlap, the pods made for it are exactly as many as the roles that stopped missing,
      whatever failed and whatever else happened. */
  lemma PodsMadeAreRolesCovered(cfg: Config, log: seq<Event>, more: seq<Event>, m: Uid)
    requires WellFormed(cfg) && RoleCoherent(cfg.table)
    requires OneAtATime(cfg, Run(cfg, InitialState(), log), more, m)
    ensures var before, after := Run(cfg, InitialState(), log).pods, Run(cfg, InitialState(), log + more).pods;
            |OwnedPods(after, m) - OwnedPods(before, m)|
            == |MissingRoles(before, m, cfg.table)| - |MissingRoles(after, m, cfg.table)|
  {
    hide Run, WellFormed, OwnedPods, MissingRoles, OneAtATime, RoleCoherent, Safe, OnePodPerRole;
    var s := Run(cfg, InitialState(), log);
    EveryRunIsSafe(cfg, log);
    RunKeepsTidy(cfg, s, more, m);
    RunAppend(cfg, InitialState(), log, more);
    OwnedPodsStay(cfg, log, more, m);
    DifferenceSize(OwnedPods(Run(cfg, InitialState(), log + more).pods, m), OwnedPods(s.pods, m));
  }
}
