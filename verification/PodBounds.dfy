/** For which template tables the pods of a machine stay within the number of roles: exactly those that label each
    template with its own role. */
module PodBounds {
  import opened Collections
  import opened Protocol
  import opened Safety
  import opened Readiness
  import opened CertificateHistory
  import opened PodPasses
  import opened PodRuns
  import opened LoneReconcile
  import opened TableLabels
  import opened OwnMachine
  import opened ReadinessExact

  // --- A stretch of one reconcile's calls -----------------------------------------------------------------

  lemma {:induction false} SoloKeepsOneAtATime(cfg: Config, from: Sys, log: seq<Event>, solo: seq<Event>, p: Pid,
                                               m: Uid)
    requires OneAtATime(cfg, from, log, m) && solo != []
    requires Starts(cfg, Run(cfg, from, log), solo[0], m) && solo[0].p == p && AllBy(solo, p)
    ensures OneAtATime(cfg, from, log + solo, m) && Latest(cfg, from, log + solo, m) == Some(p)
    ensures p in Run(cfg, from, log + solo).procs
    decreases |solo|
  {
    hide Enabled, Run, Reconciles;
    var n := |solo| - 1;
    assert (log + solo)[..|log| + n] == log + solo[..n];
    assert By(solo[n]) == Some(p);
    var s := Run(cfg, from, log + solo[..n]);
    if n == 0 {
      assert log + solo[..n] == log;
      NewcomerReconcilesNothing(cfg, s, solo[0], m);
    } else {
      SoloKeepsOneAtATime(cfg, from, log, solo[..n], p, m);
      StartedAlready(cfg, s, solo[n], p, m);
    }
    RunNext(cfg, from, log + solo[..n], solo[n]);
    assert log + solo == log + solo[..n] + [solo[n]];
    StillThere(cfg, s, solo[n], p, m);
  }

  lemma NewcomerReconcilesNothing(cfg: Config, s: Sys, e: Event, m: Uid)
    requires Starts(cfg, s, e, m)
    ensures !Reconciles(s, e.p, m) && By(e) == Some(e.p)
  {
  }

  lemma StartedAlready(cfg: Config, s: Sys, e: Event, p: Pid, m: Uid)
    requires p in s.procs && By(e) == Some(p)
    ensures !Starts(cfg, s, e, m)
  {
  }

  lemma StillThere(cfg: Config, s: Sys, e: Event, p: Pid, m: Uid)
    requires p in s.procs || (Starts(cfg, s, e, m) && e.p == p)
    ensures p in Next(cfg, s, e).procs
  {
  }

  // Reconciles of a machine that none has reconciled do not overlap.
  lemma {:induction false} NobodyOverlaps(cfg: Config, from: Sys, log: seq<Event>, m: Uid)
    requires forall p | p in Run(cfg, from, log).procs :: !Reconciles(Run(cfg, from, log), p, m)
    ensures OneAtATime(cfg, from, log, m)
  {
    hide Next, Reconciles;
    if log != [] {
      var n := |log| - 1;
      var s := Run(cfg, from, log[..n]);
      assert Run(cfg, from, log) == Next(cfg, s, log[n]);
      forall p | p in s.procs ensures !Reconciles(s, p, m) {
        ReconcilesStays(cfg, s, log[n], p, m);
      }
      NobodyOverlaps(cfg, from, log[..n], m);
      NoneOutside(s, m);
    }
  }

  lemma ReconcilesStays(cfg: Config, s: Sys, e: Event, p: Pid, m: Uid)
    requires p in s.procs
    ensures p in Next(cfg, s, e).procs && (Reconciles(s, p, m) ==> Reconciles(Next(cfg, s, e), p, m))
  {
  }

  lemma NoneOutside(s: Sys, m: Uid)
    ensures forall p | Reconciles(s, p, m) :: p in s.procs
  {
  }

  // --- Counting the pods of passes ------------------------------------------------------------------------

  lemma {:induction false} PlusOwned(pods: map<Uid, Pod>, next: Uid, m: Uid, table: Table, roles: seq<string>)
    requires UidsBelow(pods, next) && forall r | r in roles :: r in table
    ensures |OwnedPods(Plus(pods, next, m, table, roles), m)| == |OwnedPods(pods, m)| + |roles|
  {
    if roles != [] {
      var n := |roles| - 1;
      PlusOwned(pods, next, m, table, roles[..n]);
      PlusContent(pods, next, m, table, roles[..n]);
      OneMoreOwned(Plus(pods, next, m, table, roles[..n]), next + n, m, table[roles[n]]);
    }
  }

  lemma OneMoreOwned(pods: map<Uid, Pod>, u: Uid, m: Uid, t: PodTemplate)
    requires UidsBelow(pods, u)
    ensures |OwnedPods(pods[u := FromTemplate(m, t)], m)| == |OwnedPods(pods, m)| + 1
  {
    assert OwnedPods(pods[u := FromTemplate(m, t)], m) == OwnedPods(pods, m) + {u};
  }

  lemma AllMissing(pods: map<Uid, Pod>, m: Uid, table: Table, order: seq<string>)
    requires IsRoleOrder(table, order)
    ensures |Missing(order, OwnedRoles(pods, m))| == |MissingRoles(pods, m, table)|
    ensures forall r | r in Missing(order, OwnedRoles(pods, m)) :: r in table
  {
    hide OwnedRoles, Missing;
    MadeAreMissing(pods, m, table, order, Missing(order, OwnedRoles(pods, m)));
    MissingContent(order, OwnedRoles(pods, m));
    OrderIsInTable(table, order);
  }

  // One more reconcile, complete and alone, makes a pod for every missing role.
  lemma OneMorePass(cfg: Config, log: seq<Event>, m: Uid, order: seq<string>) returns (more: seq<Event>)
    requires WellFormed(cfg) && IsRoleOrder(cfg.table, order)
    requires m in Run(cfg, InitialState(), log).machines && OneAtATime(cfg, InitialState(), log, m)
    ensures OneAtATime(cfg, InitialState(), log + more, m)
    ensures var s, t := Run(cfg, InitialState(), log), Run(cfg, InitialState(), log + more);
            && t.machines == s.machines && t.born == s.born
            && |OwnedPods(t.pods, m)| == |OwnedPods(s.pods, m)| + |MissingRoles(s.pods, m, cfg.table)|
            && (forall r | r in Missing(order, OwnedRoles(s.pods, m)) :: r in cfg.table)
            && OwnedRoles(t.pods, m)
               == OwnedRoles(s.pods, m) + LabelledAs(cfg.table, Missing(order, OwnedRoles(s.pods, m)))
  {
    hide Run, WellFormed, OwnedRoles, OwnedPods, Missing, MissingRoles, LabelledAs, UidsBelow, OneAtATime, Starts, Plus,
         IsRoleOrder;
    var init, s := InitialState(), Run(cfg, InitialState(), log);
    var p := NewPid(s.procs.Keys);
    StoredWasBorn(cfg, log, m);
    more := PassAlone(cfg, s, p, m, order);
    RunAppend(cfg, init, log, more);
    SoloKeepsOneAtATime(cfg, init, log, more, p, m);
    AllMissing(s.pods, m, cfg.table, order);
    PlusOwned(s.pods, s.nextUid, m, cfg.table, Missing(order, OwnedRoles(s.pods, m)));
    RolesAfter(s.pods, s.nextUid, m, cfg.table, Missing(order, OwnedRoles(s.pods, m)));
  }

  // --- Runs with too many pods ----------------------------------------------------------------------------

  // A run in which reconciles of machine m do not overlap, and m has more than `bound` pods.
  ghost predicate Overflows(cfg: Config, log: seq<Event>, m: Uid, bound: nat) {
    && OneAtATime(cfg, InitialState(), log, m)
    && |OwnedPods(Run(cfg, InitialState(), log).pods, m)| > bound
  }

  lemma OrderOfKeys(table: Table, order: seq<string>)
    requires (set t | t in order) == table.Keys && NoRepeats(order)
    ensures IsRoleOrder(table, order)
  {
  }

  /** While a role is blocked, it stays so, and every complete pass makes at least one more pod. */
  lemma {:induction false} BlockedGrows(cfg: Config, log: seq<Event>, m: Uid, role: string, n: nat)
    returns (more: seq<Event>)
    requires WellFormed(cfg) && m in Run(cfg, InitialState(), log).machines
    requires OneAtATime(cfg, InitialState(), log, m)
    requires Blocked(cfg.table, OwnedRoles(Run(cfg, InitialState(), log).pods, m), role)
    ensures OneAtATime(cfg, InitialState(), log + more, m)
    ensures var s, t := Run(cfg, InitialState(), log), Run(cfg, InitialState(), log + more);
            && t.machines == s.machines && t.born == s.born
            && Blocked(cfg.table, OwnedRoles(t.pods, m), role)
            && |OwnedPods(t.pods, m)| >= |OwnedPods(s.pods, m)| + n
    decreases n
  {
    hide Run, WellFormed, OwnedRoles, OwnedPods, Missing, LabelledAs, OneAtATime, IsRoleOrder, Blocked, MissingRoles;
    if n == 0 {
      more := [];
      assert log + more == log;
    } else {
      var before := BlockedGrows(cfg, log, m, role, n - 1);
      var pods := Run(cfg, InitialState(), log + before).pods;
      var order := AnOrder(cfg.table.Keys);
      OrderOfKeys(cfg.table, order);
      var pass := OneMorePass(cfg, log + before, m, order);
      BlockedStays(cfg.table, order, OwnedRoles(pods, m), role);
      BlockedIsMissing(pods, m, cfg.table, role);
      more := before + pass;
      assert log + more == log + before + pass;
    }
  }

  lemma BlockedIsMissing(pods: map<Uid, Pod>, m: Uid, table: Table, role: string)
    requires Blocked(table, OwnedRoles(pods, m), role)
    ensures |MissingRoles(pods, m, table)| >= 1
  {
    assert role in MissingRoles(pods, m, table);
    EmptySize(MissingRoles(pods, m, table));
  }

  lemma BlockedOverflows(cfg: Config, log: seq<Event>, m: Uid, role: string, bound: nat) returns (more: seq<Event>)
    requires WellFormed(cfg) && m in Run(cfg, InitialState(), log).machines
    requires OneAtATime(cfg, InitialState(), log, m)
    requires Blocked(cfg.table, OwnedRoles(Run(cfg, InitialState(), log).pods, m), role)
    ensures Overflows(cfg, log + more, m, bound)
    ensures Run(cfg, InitialState(), log + more).born == Run(cfg, InitialState(), log).born
  {
    hide Run, WellFormed, OwnedRoles, OwnedPods, OneAtATime, Blocked;
    more := BlockedGrows(cfg, log, m, role, bound + 1);
  }

  // A reconcile that stops after its first creation blocks a role when templates bear each other's labels.
  lemma SwappedOverflows(cfg: Config, log: seq<Event>, m: Uid, t: string, bound: nat) returns (more: seq<Event>)
    requires WellFormed(cfg) && t in cfg.table && RoleOf(cfg.table[t].labels) != Some(t)
    requires forall role | role in cfg.table :: !Unlabelled(cfg.table, role)
    requires m in Run(cfg, InitialState(), log).machines
    requires OneAtATime(cfg, InitialState(), log, m) && OwnedRoles(Run(cfg, InitialState(), log).pods, m) == {}
    ensures Overflows(cfg, log + more, m, bound)
    ensures Run(cfg, InitialState(), log + more).born == Run(cfg, InitialState(), log).born
  {
    hide Run, WellFormed, OwnedRoles, OwnedPods, OneAtATime, Unlabelled, Overflows, IsRoleOrder, UidsBelow, Starts,
         Blocked;
    var init := InitialState();
    var rest := AnOrder(cfg.table.Keys - {t});
    var order := StartingWith(t, rest, cfg.table.Keys);
    OrderOfKeys(cfg.table, order);
    var role := SwappedBlocks(cfg.table, t);
    var s := Run(cfg, init, log);
    var p := NewPid(s.procs.Keys);
    StoredWasBorn(cfg, log, m);
    var cut := StopsAfterOne(cfg, s, p, m, order);
    RunAppend(cfg, init, log, cut);
    SoloKeepsOneAtATime(cfg, init, log, cut, p, m);
    UidIsUnused(s.pods, s.nextUid);
    OneIsOwned(s.pods, s.nextUid, m, cfg.table[t]);
    var later := BlockedOverflows(cfg, log + cut, m, role, bound);
    more := cut + later;
    assert log + more == log + cut + later;
  }

  /** With any template that lacks its role's label there is no bound: a machine of the control plane can get more
      pods than any number, by reconciles that run one after the other. */
  lemma MislabelledOverflows(cfg: Config, bound: nat) returns (log: seq<Event>, m: Uid)
    requires WellFormed(cfg) && !RoleCoherent(cfg.table)
    ensures Overflows(cfg, log, m, bound) && IsOwn(cfg, log, m)
  {
    hide WellFormed, Run, OneAtATime, OwnedRoles, Overflows, Blocked;
    var early: seq<Event>;
    early, m := AnOwnMachine(cfg);
    NobodyOverlaps(cfg, InitialState(), early, m);
    NothingIsOwned(m);
    var t :| t in cfg.table && RoleOf(cfg.table[t].labels) != Some(t);
    var more: seq<Event>;
    if role :| role in cfg.table && Unlabelled(cfg.table, role) {
      UnlabelledBlocks(cfg.table, role);
      more := BlockedOverflows(cfg, early, m, role, bound);
    } else {
      more := SwappedOverflows(cfg, early, m, t, bound);
    }
    log := early + more;
  }

  // In no such run does a machine of the control plane get more pods than this.
  ghost predicate BoundedBy(cfg: Config, bound: nat) {
    forall log, m | IsOwn(cfg, log, m) :: !Overflows(cfg, log, m, bound)
  }

  /** In every run in which reconciles of a machine do not overlap, the machine has at most as many pods as the table
      has roles, if and only if the table labels each template with the role it is listed under; otherwise there
      is no bound at all, not even for the machines of the control plane itself. */
  lemma PodsBoundedIff(cfg: Config)
    requires WellFormed(cfg)
    ensures RoleCoherent(cfg.table) <==> forall log, m :: !Overflows(cfg, log, m, |cfg.table|)
    ensures RoleCoherent(cfg.table) <==> exists bound :: BoundedBy(cfg, bound)
  {
    hide WellFormed, Overflows, RoleCoherent, IsOwn;
    if RoleCoherent(cfg.table) {
      forall log, m ensures !Overflows(cfg, log, m, |cfg.table|) {
        CoherentNeverOverflows(cfg, log, m);
      }
      assert BoundedBy(cfg, |cfg.table|);
    } else {
      forall bound: nat ensures !BoundedBy(cfg, bound) {
        var log, m := MislabelledOverflows(cfg, bound);
      }
      var log, m := MislabelledOverflows(cfg, |cfg.table|);
    }
  }

  lemma CoherentNeverOverflows(cfg: Config, log: seq<Event>, m: Uid)
    requires WellFormed(cfg) && RoleCoherent(cfg.table)
    ensures !Overflows(cfg, log, m, |cfg.table|)
  {
    hide WellFormed, RoleCoherent, Run, OneAtATime, OwnedPods, MissingRoles;
    if OneAtATime(cfg, InitialState(), log, m) {
      PodsAndMissingRoles(cfg, log, m);
    }
  }
}
