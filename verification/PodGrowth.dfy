/** What complete pod set-ups add up to, in every run of the whole system: any interleaving, overlapping
    reconciles of one machine included. */
module PodGrowth {
  import opened Collections
  import opened Protocol
  import opened Typing
  import opened Safety
  import opened Readiness
  import opened PodPasses
  import opened PodRuns

  // A reconcile with these tasks left has its pods listed, and no pod for this role left to create.
  predicate Past(todo: seq<Task>, role: string) {
    forall t | t in todo :: !t.ListPods? && t != MakePod(role)
  }

  // A reconcile with these tasks left has completed its pod set-up.
  predicate PodsSetUp(todo: seq<Task>) {
    forall t | t in todo :: !t.ListPods? && !t.MakePod?
  }

  // The reconciles of machine m that have got past role `role`, among them all that completed their pod set-up.
  function PastRole(s: Sys, m: Uid, role: string): set<Pid> {
    set p | p in s.procs && Reconciles(s, p, m) && Past(s.procs[p].todo, role)
  }

  function CompleteSetUps(s: Sys, m: Uid): set<Pid> {
    set p | p in s.procs && Reconciles(s, p, m) && PodsSetUp(s.procs[p].todo)
  }

  // No reconcile plans two pods for one role, and none plans any before it has listed the pods.
  ghost predicate AllPlanned(s: Sys) {
    forall p | p in s.procs && IsMachine(s, p) :: PlansApart(s.procs[p].todo, {})
  }

  lemma PlansForNobody(todo: seq<Task>, owned: set<string>)
    requires PlansApart(todo, owned)
    ensures PlansApart(todo, {})
  {
  }

  lemma PlannedStep(cfg: Config, s: Sys, e: Event, p: Pid)
    requires AllTyped(cfg, s) && IsMachine(s, p) && PlansApart(s.procs[p].todo, {})
    requires Enabled(cfg, s, e) && By(e) == Some(p)
    ensures PlansApart(Apply(cfg, s, e).procs[p].todo, {})
  {
    hide OwnedRoles, PlansApart, AllTyped, MakeTasks, Past;
    var pr := s.procs[p];
    if e.PodMade? {
      RestIsPlanned(pr.todo, {});
      PlansForNobody(pr.todo[1..], {} + {pr.todo[0].role});
      assert [] + pr.todo[1..] == pr.todo[1..];
    } else if e.PodsListed? {
      var found := OwnedRoles(s.pods, pr.actor.uid);
      OrderHasNoRepeats(cfg, s, p);
      ListingTailIsPlain(pr.todo, {});
      ListingPlansApart(pr.actor.order, pr.todo[1..], found);
      PlansForNobody(MakeTasks(pr.actor.order, found) + pr.todo[1..], found);
    } else if !e.SecretMissing? {
      PlainUnfolding(cfg, s, e);
      OtherRestIsPlanned(pr.todo, Unfolded(cfg, s, e), {});
    }
  }

  lemma ActorsStay(cfg: Config, s: Sys, e: Event, p: Pid)
    requires p in Next(cfg, s, e).procs
    ensures p in s.procs ==> Next(cfg, s, e).procs[p].actor == s.procs[p].actor
    ensures p !in s.procs && IsMachine(Next(cfg, s, e), p) ==> Next(cfg, s, e).procs[p].todo == MachineTasks()
    ensures By(e) != Some(p) ==> p in s.procs && Next(cfg, s, e).procs[p] == s.procs[p]
  {
  }

  lemma StepKeepsPlanned(cfg: Config, s: Sys, e: Event)
    requires AllTyped(cfg, s) && AllPlanned(s)
    ensures AllPlanned(Next(cfg, s, e))
  {
    hide Apply, Enabled, PlansApart, AllTyped;
    forall p | p in Next(cfg, s, e).procs && IsMachine(Next(cfg, s, e), p)
      ensures PlansApart(Next(cfg, s, e).procs[p].todo, {})
    {
      ActorsStay(cfg, s, e, p);
      if p !in s.procs {
        StartIsPlanned();
      } else if Enabled(cfg, s, e) && By(e) == Some(p) {
        PlannedStep(cfg, s, e, p);
      }
    }
  }

  lemma StartIsPlanned()
    ensures PlansApart(MachineTasks(), {})
  {
  }

  lemma {:induction false} EveryRunIsPlanned(cfg: Config, log: seq<Event>)
    requires WellFormed(cfg)
    ensures AllPlanned(Run(cfg, InitialState(), log))
  {
    hide Safe, WellFormed, AllPlanned, Next, AllTyped;
    if log == [] {
      NobodyPlans();
    } else {
      var n := |log| - 1;
      EveryRunIsPlanned(cfg, log[..n]);
      EveryRunIsSafe(cfg, log[..n]);
      SafeIsTyped(cfg, Run(cfg, InitialState(), log[..n]));
      StepKeepsPlanned(cfg, Run(cfg, InitialState(), log[..n]), log[n]);
    }
  }

  lemma NobodyPlans()
    ensures AllPlanned(InitialState())
  {
  }

  // --- A role that labels no template -----------------------------------------------------------------------

  function OwnedWithImage(pods: map<Uid, Pod>, m: Uid, image: string): set<Uid> {
    set u | u in pods && Owned(pods[u], m) && pods[u].image == image
  }

  // The event makes machine m a pod for `role`.
  predicate Makes(cfg: Config, s: Sys, e: Event, m: Uid, role: string) {
    e.PodMade? && Enabled(cfg, s, e) && Reconciles(s, e.p, m) && Current(s, e.p) == MakePod(role)
  }

  // The event makes machine m a pod with this image.
  predicate MakesImage(cfg: Config, s: Sys, e: Event, m: Uid, image: string) {
    && e.PodMade? && Enabled(cfg, s, e) && Reconciles(s, e.p, m)
    && cfg.table[Current(s, e.p).role].image == image
  }

  lemma {:induction false} MissingIsPlanned(order: seq<string>, found: set<string>, role: string)
    requires role in order && role !in found
    ensures MakePod(role) in MakeTasks(order, found)
  {
    if order[0] != role {
      MissingIsPlanned(order[1..], found, role);
      assert MakePod(role) in MakeTasks(order[1..], found);
    }
  }

  lemma TailIsPast(todo: seq<Task>, more: seq<Task>, role: string)
    requires todo != [] && !todo[0].ListPods? && todo[0] != MakePod(role)
    requires forall t | t in more :: !t.ListPods? && t != MakePod(role)
    ensures Past(more + todo[1..], role) <==> Past(todo, role)
  {
    assert todo == [todo[0]] + todo[1..];
    assert forall t :: t in more + todo[1..] <==> t in more || t in todo[1..];
  }

  lemma MakingIsPast(todo: seq<Task>, role: string)
    requires todo != [] && todo[0] == MakePod(role) && PlansApart(todo, {})
    ensures !Past(todo, role) && Past(todo[1..], role)
  {
    forall t | t in todo[1..] ensures !t.ListPods? && t != MakePod(role) {
      var i :| 0 <= i < |todo| - 1 && todo[1..][i] == t;
      assert todo[i + 1] == t;
    }
  }

  lemma ListingIsNotPast(todo: seq<Task>, order: seq<string>, found: set<string>, role: string)
    requires todo != [] && todo[0].ListPods? && role in order && role !in found
    ensures !Past(todo, role) && !Past(MakeTasks(order, found) + todo[1..], role)
  {
    MissingIsPlanned(order, found, role);
    assert MakePod(role) in MakeTasks(order, found) + todo[1..];
  }

  lemma RoleIsInOrder(cfg: Config, s: Sys, p: Pid, role: string)
    requires AllTyped(cfg, s) && IsMachine(s, p) && role in cfg.table
    ensures role in s.procs[p].actor.order
  {
    assert Typed(cfg, s.procs[p]);
    assert role in (set t | t in s.procs[p].actor.order);
  }

  // A reconcile gets past an unlabelled role exactly by making its pod.
  lemma PastStep(cfg: Config, s: Sys, e: Event, p: Pid, role: string)
    requires AllTyped(cfg, s) && AllPlanned(s) && IsMachine(s, p) && role in cfg.table
    requires role !in OwnedRoles(s.pods, s.procs[p].actor.uid)
    requires Enabled(cfg, s, e) && By(e) == Some(p)
    ensures Past(Apply(cfg, s, e).procs[p].todo, role) <==>
              Past(s.procs[p].todo, role) || (e.PodMade? && Current(s, p) == MakePod(role))
    ensures e.PodMade? && Current(s, p) == MakePod(role) ==> !Past(s.procs[p].todo, role)
  {
    hide OwnedRoles, AllTyped, MakeTasks, PlansApart, Past;
    var pr := s.procs[p];
    if e.PodMade? && Current(s, p) == MakePod(role) {
      MakingIsPast(pr.todo, role);
      assert [] + pr.todo[1..] == pr.todo[1..];
    } else if e.PodsListed? {
      RoleIsInOrder(cfg, s, p, role);
      ListingIsNotPast(pr.todo, pr.actor.order, OwnedRoles(s.pods, pr.actor.uid), role);
    } else if !e.SecretMissing? {
      PlainUnfolding(cfg, s, e);
      TailIsPast(pr.todo, Unfolded(cfg, s, e), role);
    }
  }

  lemma StartIsNotPast(role: string)
    ensures !Past(MachineTasks(), role)
  {
    assert ListPods in MachineTasks();
  }

  lemma PastRoleMember(cfg: Config, s: Sys, e: Event, m: Uid, role: string, p: Pid)
    requires AllTyped(cfg, s) && AllPlanned(s) && role in cfg.table && role !in OwnedRoles(s.pods, m)
    ensures p in PastRole(Next(cfg, s, e), m, role) <==>
              p in PastRole(s, m, role) || (Makes(cfg, s, e, m, role) && p == e.p)
    ensures Makes(cfg, s, e, m, role) ==> e.p !in PastRole(s, m, role)
  {
    hide OwnedRoles, AllTyped, AllPlanned, Past, Apply, Enabled;
    var s' := Next(cfg, s, e);
    if Makes(cfg, s, e, m, role) {
      PastStep(cfg, s, e, e.p, role);
    }
    ProcsStay(cfg, s, e, p);
    if p in s'.procs {
      ActorsStay(cfg, s, e, p);
      if p !in s.procs {
        StartIsNotPast(role);
      } else if Enabled(cfg, s, e) && By(e) == Some(p) && Reconciles(s, p, m) {
        PastStep(cfg, s, e, p, role);
      }
    }
  }

  lemma PastRoleStep(cfg: Config, s: Sys, e: Event, m: Uid, role: string)
    requires AllTyped(cfg, s) && AllPlanned(s) && role in cfg.table && role !in OwnedRoles(s.pods, m)
    ensures PastRole(Next(cfg, s, e), m, role)
         == PastRole(s, m, role) + if Makes(cfg, s, e, m, role) then {e.p} else {}
    ensures Makes(cfg, s, e, m, role) ==> e.p !in PastRole(s, m, role)
  {
    hide OwnedRoles, AllTyped, AllPlanned, PastRole, Next, Enabled;
    PastRoleMember(cfg, s, e, m, role, 0);
    forall p ensures p in PastRole(Next(cfg, s, e), m, role) <==>
                       p in PastRole(s, m, role) || (Makes(cfg, s, e, m, role) && p == e.p)
    {
      PastRoleMember(cfg, s, e, m, role, p);
    }
  }

  lemma ProcsStay(cfg: Config, s: Sys, e: Event, p: Pid)
    ensures p in s.procs ==> p in Next(cfg, s, e).procs
  {
  }

  lemma ImageStep(cfg: Config, s: Sys, e: Event, m: Uid, image: string)
    requires PodsBelong(cfg, s)
    ensures OwnedWithImage(Next(cfg, s, e).pods, m, image)
         == OwnedWithImage(s.pods, m, image) + if MakesImage(cfg, s, e, m, image) then {s.nextUid} else {}
    ensures s.nextUid !in OwnedWithImage(s.pods, m, image)
  {
    hide OwnedWithImage, Elsewhere, PodsBelong, Next;
    PodUidIsNew(cfg, s);
    UnusedUid(s.pods, s.nextUid, m, image);
    if e.PodMade? && Enabled(cfg, s, e) && Reconciles(s, e.p, m) {
      MadePod(cfg, s, e);
      OneMoreImage(s.pods, s.nextUid, m, cfg.table[Current(s, e.p).role], image);
    } else {
      OthersActElsewhereOrNowhere(cfg, s, e, m);
      ElsewhereKeepsImages(s.pods, Next(cfg, s, e).pods, m, image);
    }
  }

  lemma UnusedUid(pods: map<Uid, Pod>, u: Uid, m: Uid, image: string)
    requires u !in pods
    ensures u !in OwnedWithImage(pods, m, image)
  {
  }

  lemma MadePod(cfg: Config, s: Sys, e: Event)
    requires e.PodMade? && Enabled(cfg, s, e)
    ensures Next(cfg, s, e).pods
         == s.pods[s.nextUid := FromTemplate(s.procs[e.p].actor.uid, cfg.table[Current(s, e.p).role])]
  {
  }

  lemma OneMoreImage(pods: map<Uid, Pod>, u: Uid, m: Uid, t: PodTemplate, image: string)
    requires u !in pods
    ensures OwnedWithImage(pods[u := FromTemplate(m, t)], m, image)
         == OwnedWithImage(pods, m, image) + if t.image == image then {u} else {}
  {
  }

  lemma OthersActElsewhereOrNowhere(cfg: Config, s: Sys, e: Event, m: Uid)
    requires PodsBelong(cfg, s) && !(e.PodMade? && Enabled(cfg, s, e) && Reconciles(s, e.p, m))
    ensures Elsewhere(s.pods, Next(cfg, s, e).pods, m)
  {
    hide PodsBelong, Enabled, Apply;
    if Enabled(cfg, s, e) {
      OthersActElsewhere(cfg, s, e, m);
    }
  }

  lemma ElsewhereKeepsImages(before: map<Uid, Pod>, after: map<Uid, Pod>, m: Uid, image: string)
    requires Elsewhere(before, after, m)
    ensures OwnedWithImage(after, m, image) == OwnedWithImage(before, m, image)
  {
    assert forall u | u in before :: after[u] == before[u].(phase := after[u].phase);
  }

  // The image of a role's template is no other template's.
  predicate OwnImage(table: Table, role: string) {
    role in table && forall t | t in table && table[t].image == table[role].image :: t == role
  }

  lemma GrowthStep(cfg: Config, s: Sys, e: Event, m: Uid, role: string)
    requires Safe(cfg, s) && AllPlanned(s) && role in cfg.table && role !in OwnedRoles(s.pods, m)
    ensures var image := cfg.table[role].image;
            var made := |OwnedWithImage(Next(cfg, s, e).pods, m, image)| - |OwnedWithImage(s.pods, m, image)|;
            var past := |PastRole(Next(cfg, s, e), m, role)| - |PastRole(s, m, role)|;
            made >= past && (OwnImage(cfg.table, role) ==> made == past)
  {
    hide Safe, AllPlanned, OwnedRoles, PastRole, OwnedWithImage, Next, AllTyped, PodsBelong;
    SafeIsTyped(cfg, s);
    PodsAreBelonging(cfg, s);
    PastRoleStep(cfg, s, e, m, role);
    ImageStep(cfg, s, e, m, cfg.table[role].image);
    assert Makes(cfg, s, e, m, role) ==> MakesImage(cfg, s, e, m, cfg.table[role].image);
  }

  /** A role that labels no template gets a pod from every reconcile that gets past it, in every run, overlapping
      reconciles of the machine included: there are at least as many pods of its template, and exactly as many if
      no other template has its image. */
  lemma {:induction false} OnePodFromEveryReconcile(cfg: Config, log: seq<Event>, m: Uid, role: string)
    requires WellFormed(cfg) && Unlabelled(cfg.table, role)
    ensures var s, image := Run(cfg, InitialState(), log), cfg.table[role].image;
            && |OwnedWithImage(s.pods, m, image)| >= |PastRole(s, m, role)|
            && (OwnImage(cfg.table, role) ==> |OwnedWithImage(s.pods, m, image)| == |PastRole(s, m, role)|)
  {
    hide Safe, WellFormed, AllPlanned, OwnedRoles, PastRole, OwnedWithImage, Next;
    if log == [] {
      NothingYet(m, role, cfg.table[role].image);
    } else {
      var n := |log| - 1;
      OnePodFromEveryReconcile(cfg, log[..n], m, role);
      EveryRunIsSafe(cfg, log[..n]);
      EveryRunIsPlanned(cfg, log[..n]);
      UnlabelledIsNeverOwned(cfg, log[..n], m, role);
      GrowthStep(cfg, Run(cfg, InitialState(), log[..n]), log[n], m, role);
    }
  }

  lemma NothingYet(m: Uid, role: string, image: string)
    ensures PastRole(InitialState(), m, role) == {} && OwnedWithImage(InitialState().pods, m, image) == {}
  {
  }

  lemma CompleteIsPast(s: Sys, m: Uid, role: string)
    ensures |CompleteSetUps(s, m)| <= |PastRole(s, m, role)|
  {
    assert CompleteSetUps(s, m) <= PastRole(s, m, role);
    SubsetSize(CompleteSetUps(s, m), PastRole(s, m, role));
  }

  /** So n complete pod set-ups of a machine, in whatever runs, have made at least n pods of an unlabelled role's
      template. */
  lemma UnlabelledRoleGrowsForever(cfg: Config, log: seq<Event>, m: Uid, role: string)
    requires WellFormed(cfg) && Unlabelled(cfg.table, role)
    ensures var s := Run(cfg, InitialState(), log);
            |CompleteSetUps(s, m)| <= |OwnedWithImage(s.pods, m, cfg.table[role].image)|
  {
    hide Run, CompleteSetUps, PastRole, OwnedWithImage;
    OnePodFromEveryReconcile(cfg, log, m, role);
    CompleteIsPast(Run(cfg, InitialState(), log), m, role);
  }

  // --- A table labelled with its roles ----------------------------------------------------------------------

  // What a reconcile has not seen to have a pod, it still plans to list or make.
  predicate Awaits(table: Table, pr: Proc) {
    ListPods in pr.todo || forall t | t in table :: t in pr.done || MakePod(t) in pr.todo
  }

  ghost predicate AllAwait(cfg: Config, s: Sys) {
    forall p | p in s.procs && IsMachine(s, p) :: Awaits(cfg.table, s.procs[p])
  }

  lemma AwaitsAfterListing(cfg: Config, s: Sys, p: Pid, found: set<string>, rest: seq<Task>, done: set<string>)
    requires AllTyped(cfg, s) && IsMachine(s, p) && found <= done
    ensures forall t | t in cfg.table :: t in done || MakePod(t) in MakeTasks(s.procs[p].actor.order, found) + rest
  {
    forall t | t in cfg.table && t !in done ensures MakePod(t) in MakeTasks(s.procs[p].actor.order, found) + rest {
      RoleIsInOrder(cfg, s, p, t);
      MissingIsPlanned(s.procs[p].actor.order, found, t);
    }
  }

  lemma AwaitsAfterOther(table: Table, pr: Proc, more: seq<Task>, known: set<string>)
    requires pr.todo != [] && !pr.todo[0].ListPods? && Awaits(table, pr)
    requires pr.todo[0].MakePod? ==> pr.todo[0].role in known
    ensures Awaits(table, Proc(pr.actor, more + pr.todo[1..], pr.done + known, pr.keys, false))
  {
    var todo' := more + pr.todo[1..];
    assert pr.todo == [pr.todo[0]] + pr.todo[1..];
    assert forall t | t in pr.todo :: t == pr.todo[0] || t in todo';
  }

  lemma AwaitStep(cfg: Config, s: Sys, e: Event, p: Pid)
    requires AllTyped(cfg, s) && IsMachine(s, p) && Awaits(cfg.table, s.procs[p])
    requires Enabled(cfg, s, e) && By(e) == Some(p) && !e.CAGenerated?
    ensures Awaits(cfg.table, Apply(cfg, s, e).procs[p])
  {
    hide OwnedRoles, AllTyped, MakeTasks, Awaits, Unfolded;
    var pr := s.procs[p];
    if e.PodsListed? {
      AwaitsAfterListing(cfg, s, p, OwnedRoles(s.pods, pr.actor.uid), pr.todo[1..],
                         pr.done + OwnedRoles(s.pods, pr.actor.uid));
      ListedAwaits(cfg, s, e);
    } else if e.SecretMissing? {
      MissingAwaits(cfg.table, pr);
    } else {
      AwaitsAfterOther(cfg.table, pr, Unfolded(cfg, s, e), Taught(cfg, s, e));
    }
  }

  lemma MissingAwaits(table: Table, pr: Proc)
    requires Awaits(table, pr)
    ensures Awaits(table, pr.(missing := true))
  {
  }

  lemma ListedAwaits(cfg: Config, s: Sys, e: Event)
    requires Enabled(cfg, s, e) && e.PodsListed?
    requires var pr := s.procs[e.p];
             var found := OwnedRoles(s.pods, pr.actor.uid);
             forall t | t in cfg.table ::
               t in pr.done + found || MakePod(t) in MakeTasks(pr.actor.order, found) + pr.todo[1..]
    ensures Awaits(cfg.table, Apply(cfg, s, e).procs[e.p])
  {
    hide OwnedRoles, MakeTasks;
  }

  lemma StepKeepsAwaiting(cfg: Config, s: Sys, e: Event)
    requires AllTyped(cfg, s) && AllAwait(cfg, s)
    ensures AllAwait(cfg, Next(cfg, s, e))
  {
    hide Apply, Enabled, Awaits, AllTyped;
    forall p | p in Next(cfg, s, e).procs && IsMachine(Next(cfg, s, e), p)
      ensures Awaits(cfg.table, Next(cfg, s, e).procs[p])
    {
      ActorsStay(cfg, s, e, p);
      if p !in s.procs {
        StartAwaits(cfg.table, Next(cfg, s, e).procs[p]);
      } else if Enabled(cfg, s, e) && By(e) == Some(p) {
        MachinesGenerateNothing(cfg, s, e, p);
        AwaitStep(cfg, s, e, p);
      }
    }
  }

  lemma MachinesGenerateNothing(cfg: Config, s: Sys, e: Event, p: Pid)
    requires AllTyped(cfg, s) && IsMachine(s, p) && Enabled(cfg, s, e) && By(e) == Some(p)
    ensures !e.CAGenerated?
  {
    assert Typed(cfg, s.procs[p]);
  }

  lemma StartAwaits(table: Table, pr: Proc)
    requires pr.todo == MachineTasks()
    ensures Awaits(table, pr)
  {
    assert pr.todo[0] == ListPods;
  }

  lemma {:induction false} EveryRunAwaits(cfg: Config, log: seq<Event>)
    requires WellFormed(cfg)
    ensures AllAwait(cfg, Run(cfg, InitialState(), log))
  {
    hide Safe, WellFormed, Next, Awaits, AllTyped;
    if log != [] {
      var n := |log| - 1;
      EveryRunAwaits(cfg, log[..n]);
      EveryRunIsSafe(cfg, log[..n]);
      SafeIsTyped(cfg, Run(cfg, InitialState(), log[..n]));
      StepKeepsAwaiting(cfg, Run(cfg, InitialState(), log[..n]), log[n]);
    }
  }

  /** With coherent labels, once one reconcile of a machine has completed its pod set-up, in whatever run, no role
      of the machine is ever missing again. */
  lemma CompleteSetUpLeavesNoneMissing(cfg: Config, log: seq<Event>, m: Uid, more: seq<Event>)
    requires WellFormed(cfg) && RoleCoherent(cfg.table) && CompleteSetUps(Run(cfg, InitialState(), log), m) != {}
    ensures MissingRoles(Run(cfg, InitialState(), log + more).pods, m, cfg.table) == {}
  {
    hide Run, WellFormed, RoleCoherent, OwnedRoles, Covers, Safe;
    var s := Run(cfg, InitialState(), log);
    var p :| p in CompleteSetUps(s, m);
    EveryRunIsSincere(cfg, log);
    EveryRunAwaits(cfg, log);
    assert Awaits(cfg.table, s.procs[p]);
    forall t | t in cfg.table ensures t in OwnedRoles(s.pods, m) {
      assert Covers(s.pods, m, t);
      CoveredIsOwned(s.pods, m, t);
    }
    MissingNeverGrows(cfg, log, more, m);
  }
}
