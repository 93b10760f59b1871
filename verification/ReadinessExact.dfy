/** For which template tables every machine stored as ready was found fully running by the reconcile that stored
    it: exactly those that label each template with its own role. */
module ReadinessExact {
  import opened Protocol
  import opened Safety
  import opened Readiness
  import opened PodPasses
  import opened PodRuns
  import opened LoneReconcile
  import opened TableLabels
  import opened OwnMachine
  import opened Ordering

  // --- A run that goes wrong ------------------------------------------------------------------------------

  ghost predicate EverFullyRunning(cfg: Config, log: seq<Event>, m: Uid) {
    exists i :: 0 <= i <= |log| && FullyRunning(cfg, Run(cfg, InitialState(), log[..i]), m)
  }

  // A role that is missing at the end was missing all the time.
  lemma MissingAllAlong(cfg: Config, log: seq<Event>, m: Uid, role: string)
    requires WellFormed(cfg) && role in cfg.table && role !in OwnedRoles(Run(cfg, InitialState(), log).pods, m)
    ensures !EverFullyRunning(cfg, log, m)
  {
    forall i | 0 <= i <= |log| ensures !FullyRunning(cfg, Run(cfg, InitialState(), log[..i]), m) {
      hide Run, WellFormed, OwnedRoles, AllRunning;
      assert log == log[..i] + log[i..];
      MissingNeverGrows(cfg, log[..i], log[i..], m);
      if Covers(Run(cfg, InitialState(), log[..i]).pods, m, role) {
        CoveredIsOwned(Run(cfg, InitialState(), log[..i]).pods, m, role);
      }
    }
  }

  lemma StoredWasBorn(cfg: Config, log: seq<Event>, m: Uid)
    requires WellFormed(cfg) && m in Run(cfg, InitialState(), log).machines
    ensures m in Run(cfg, InitialState(), log).born
    ensures UidsBelow(Run(cfg, InitialState(), log).pods, Run(cfg, InitialState(), log).nextUid)
  {
    EveryRunIsSafe(cfg, log);
  }

  /** With a role that labels no template: from any state with machine `m`, one more reconcile of it, complete and
      alone, leads to a machine stored as ready that never had all its roles. */
  lemma UnlabelledGoesWrong(cfg: Config, log: seq<Event>, m: Uid, p: Pid, role: string) returns (more: seq<Event>)
    requires WellFormed(cfg) && Unlabelled(cfg.table, role)
    requires var s := Run(cfg, InitialState(), log); m in s.machines && p !in s.procs
    ensures StoredReady(cfg, log + more, m) && !EverFullyRunning(cfg, log + more, m)
  {
    hide Run, WellFormed, OwnedRoles, LabelledAs, Missing, EverFullyRunning, UidsBelow, Unlabelled;
    StoredWasBorn(cfg, log, m);
    var order := AnOrder(cfg.table.Keys);
    more := BecomesReady(cfg, Run(cfg, InitialState(), log), p, m, order);
    RunAppend(cfg, InitialState(), log, more);
    UnlabelledIsNeverOwned(cfg, log + more, m, role);
    UnlabelledIsARole(cfg.table, role);
    MissingAllAlong(cfg, log + more, m, role);
  }

  lemma UnlabelledIsARole(table: Table, role: string)
    requires Unlabelled(table, role)
    ensures role in table
  {
  }

  /** With two templates that bear each other's labels: from any state with machine `m` and no pod that counts for
      a role of it, a reconcile of it that stops after one creation and a complete one lead to a machine stored as
      ready that never had all its roles. */
  lemma SwappedGoesWrong(cfg: Config, log: seq<Event>, m: Uid, t: string) returns (more: seq<Event>)
    requires WellFormed(cfg) && t in cfg.table && RoleOf(cfg.table[t].labels) != Some(t)
    requires forall role | role in cfg.table :: !Unlabelled(cfg.table, role)
    requires var s := Run(cfg, InitialState(), log); m in s.machines && OwnedRoles(s.pods, m) == {}
    ensures StoredReady(cfg, log + more, m) && !EverFullyRunning(cfg, log + more, m)
  {
    hide Run, WellFormed, OwnedRoles, LabelledAs, Missing, EverFullyRunning, Unlabelled, UidsBelow;
    var table, init := cfg.table, InitialState();
    var rest := AnOrder(table.Keys - {t});
    var order := StartingWith(t, rest, table.Keys);
    assert IsRoleOrder(table, order);
    var role := SwappedBlocks(table, t);
    var s := Run(cfg, init, log);
    var p := NewPid(s.procs.Keys);
    StoredWasBorn(cfg, log, m);
    var cut := StopsAfterOne(cfg, s, p, m, order);
    var a := Run(cfg, s, cut);
    UidIsUnused(s.pods, s.nextUid);
    OneIsOwned(s.pods, s.nextUid, m, table[t]);
    var q := NewPid(a.procs.Keys);
    RunAppend(cfg, init, log, cut);
    StoredWasBorn(cfg, log + cut, m);
    var later := BecomesReady(cfg, a, q, m, order);
    BlockedStays(table, order, {RoleOf(table[t].labels).value}, role);
    more := cut + later;
    assert log + more == log + cut + later;
    RunAppend(cfg, init, log + cut, later);
    MissingAllAlong(cfg, log + more, m, role);
  }

  lemma UidIsUnused(pods: map<Uid, Pod>, next: Uid)
    requires UidsBelow(pods, next)
    ensures next !in pods
  {
  }

  // The control plane made this machine.
  ghost predicate IsOwn(cfg: Config, log: seq<Event>, m: Uid) {
    var s := Run(cfg, InitialState(), log);
    m in s.born && s.born[m] == cfg.kcp
  }

  /** With any template that lacks its role's label there is such a run for a machine of the control plane itself,
      made when all secrets were stored. */
  lemma MislabelledGoesWrong(cfg: Config) returns (log: seq<Event>, m: Uid)
    requires WellFormed(cfg) && !RoleCoherent(cfg.table)
    ensures StoredReady(cfg, log, m) && !EverFullyRunning(cfg, log, m)
    ensures IsOwn(cfg, log, m) && AllNames(cfg.tree) <= Run(cfg, InitialState(), log).secrets.Keys
  {
    hide StoredReady, EverFullyRunning, WellFormed, Run;
    var early: seq<Event>;
    early, m := AnOwnMachine(cfg);
    var s := Run(cfg, InitialState(), early);
    var t :| t in cfg.table && RoleOf(cfg.table[t].labels) != Some(t);
    var more: seq<Event>;
    if role :| role in cfg.table && Unlabelled(cfg.table, role) {
      var p := NewPid(s.procs.Keys);
      more := UnlabelledGoesWrong(cfg, early, m, p, role);
    } else {
      NothingIsOwned(m);
      more := SwappedGoesWrong(cfg, early, m, t);
    }
    log := early + more;
    EveryRunIsSafe(cfg, early);
    BornOnce(cfg, s, more, m);
    RunAppend(cfg, InitialState(), early, more);
    OwnComesLate(cfg, log, m);
  }

  lemma OwnComesLate(cfg: Config, log: seq<Event>, m: Uid)
    requires WellFormed(cfg) && IsOwn(cfg, log, m)
    ensures AllNames(cfg.tree) <= Run(cfg, InitialState(), log).secrets.Keys
  {
    EveryRunIsSafe(cfg, log);
  }

  // The reconcile of event j, which stores machine m as ready, found m fully running by its own check.
  ghost predicate WellChecked(cfg: Config, log: seq<Event>, j: nat, m: Uid) {
    exists i :: FoundFullyRunning(cfg, log, i, j, m)
  }

  lemma CheckedMeansEver(cfg: Config, log: seq<Event>, j: nat, m: Uid)
    requires WellChecked(cfg, log, j, m)
    ensures EverFullyRunning(cfg, log, m)
  {
    hide FullyRunning, Run;
    var i :| FoundFullyRunning(cfg, log, i, j, m);
  }

  /** In every run every reconcile that stores a machine as ready found it fully running, by its own check, if and
      only if the table labels each template with the role it is listed under; and so it is already when only the
      machines of the control plane itself are looked at. */
  lemma ReadinessSoundIff(cfg: Config)
    requires WellFormed(cfg)
    ensures RoleCoherent(cfg.table) <==>
              forall log, j, m | ReadyWrite(cfg, log, j, m) :: WellChecked(cfg, log, j, m)
    ensures RoleCoherent(cfg.table) <==>
              forall log, j, m | ReadyWrite(cfg, log, j, m) && IsOwn(cfg, log, m) :: WellChecked(cfg, log, j, m)
  {
    hide StoredReady, EverFullyRunning, WellFormed, ReadyWrite, WellChecked, RoleCoherent, Run, IsOwn;
    if RoleCoherent(cfg.table) {
      forall log, j, m | ReadyWrite(cfg, log, j, m) ensures WellChecked(cfg, log, j, m) {
        CoherentIsWellChecked(cfg, log, j, m);
      }
    } else {
      var log, m := MislabelledGoesWrong(cfg);
      var j := ReadyWasWritten(cfg, log, m);
      if WellChecked(cfg, log, j, m) {
        CheckedMeansEver(cfg, log, j, m);
      }
    }
  }

  lemma CoherentIsWellChecked(cfg: Config, log: seq<Event>, j: nat, m: Uid)
    requires WellFormed(cfg) && RoleCoherent(cfg.table) && ReadyWrite(cfg, log, j, m)
    ensures WellChecked(cfg, log, j, m)
  {
    hide FoundFullyRunning, ReadyWrite;
    var i := ReadyWriteWasChecked(cfg, log, j, m);
  }

  // --- The theorems are about something ---------------------------------------------------------------------

  /** For every well-formed configuration there is a run in which the control plane is stored as ready. */
  lemma AReadyControlPlane(cfg: Config) returns (log: seq<Event>)
    requires WellFormed(cfg)
    ensures ControlPlaneReady(cfg, log)
  {
    hide WellFormed, Run, ControlPlaneReady, OwnedRoles, LabelledAs, Missing, UidsBelow, AllNames;
    var early, m := AnOwnMachine(cfg);
    var s := Run(cfg, InitialState(), early);
    var p := NewPid(s.procs.Keys);
    StoredWasBorn(cfg, early, m);
    var order := AnOrder(cfg.table.Keys);
    var more := BecomesReady(cfg, s, p, m, order);
    RunAppend(cfg, InitialState(), early, more);
    EveryRunIsSafe(cfg, early);
    BornOnce(cfg, s, more, m);
    var last := ControlPlaneBecomesReady(cfg, early + more, m);
    log := early + more + last;
  }
}
