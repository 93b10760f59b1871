/** What any history of certificate writes leads to: any number of reconciles, interleaved call by call,
    with stale reads, failed calls and crashes at any point. */
module CertificateHistory {
  import opened Protocol
  import opened Typing
  import opened Safety

  // A stored leaf verifies against the stored secret of its CA.
  predicate Coherent(s: Sys, ca: string, leaf: string) {
    ca in s.secrets && leaf in s.secrets && s.secrets[leaf].signer == s.secrets[ca].key
  }

  /** A stored leaf is signed by the stored CA exactly when one reconcile wrote both. */
  lemma CoherentIffSameWriter(cfg: Config, log: seq<Event>, ca: string, leaf: string)
    requires WellFormed(cfg) && ca in cfg.tree && leaf in cfg.tree[ca]
    requires leaf in Run(cfg, InitialState(), log).secrets
    ensures var s := Run(cfg, InitialState(), log);
            && ca in s.secrets && ca in s.writtenBy && leaf in s.writtenBy
            && (Coherent(s, ca, leaf) <==> s.writtenBy[leaf] == s.writtenBy[ca])
  {
    EveryRunIsSafe(cfg, log);
    SafeCoherence(cfg, Run(cfg, InitialState(), log), ca, leaf);
  }

  lemma SafeCoherence(cfg: Config, s: Sys, ca: string, leaf: string)
    requires WellFormed(cfg) && Safe(cfg, s)
    requires ca in cfg.tree && leaf in cfg.tree[ca] && leaf in s.secrets
    ensures ca in s.secrets && ca in s.writtenBy && leaf in s.writtenBy
    ensures Coherent(s, ca, leaf) <==> s.writtenBy[leaf] == s.writtenBy[ca]
  {
    var k, signer := s.secrets[ca].key, s.secrets[leaf].signer;
    assert IssuedBy(s.issued, k, s.writtenBy[ca], ca);
    assert IssuedBy(s.issued, signer, s.writtenBy[leaf], ca);
    assert Holds(s.procs, s.issued[k].pid, s.issued[k].name, k);
    assert Holds(s.procs, s.issued[signer].pid, s.issued[signer].name, signer);
  }

  /** In every run the private key in a stored secret was drawn for that very name by the reconcile that stored it,
      so no two secrets share one, and a CA signs itself. */
  lemma EverySecretHasItsOwnKey(cfg: Config, log: seq<Event>)
    requires WellFormed(cfg)
    ensures var s := Run(cfg, InitialState(), log);
            && (forall a, b | a in s.secrets && b in s.secrets && a != b :: s.secrets[a].key != s.secrets[b].key)
            && (forall n | n in s.secrets ::
                  n in s.writtenBy && s.secrets[n].key in s.issued
                  && s.issued[s.secrets[n].key] == Issue(s.writtenBy[n], n))
            && (forall c | c in cfg.tree && c in s.secrets :: s.secrets[c].signer == s.secrets[c].key)
  {
    EveryRunIsSafe(cfg, log);
    KeysAreApart(cfg, Run(cfg, InitialState(), log));
  }

  lemma KeysAreApart(cfg: Config, s: Sys)
    requires Safe(cfg, s)
    ensures forall a, b | a in s.secrets && b in s.secrets && a != b :: s.secrets[a].key != s.secrets[b].key
    ensures forall n | n in s.secrets ::
              n in s.writtenBy && IssuedBy(s.issued, s.secrets[n].key, s.writtenBy[n], n)
    ensures forall c | c in cfg.tree && c in s.secrets :: s.secrets[c].signer == s.secrets[c].key
  {
    forall a, b | a in s.secrets && b in s.secrets && a != b ensures s.secrets[a].key != s.secrets[b].key {
      assert IssuedBy(s.issued, s.secrets[a].key, s.writtenBy[a], a);
      assert IssuedBy(s.issued, s.secrets[b].key, s.writtenBy[b], b);
    }
  }

  // --- Create once ----------------------------------------------------------------------------------------

  /** A secret, once stored, is there for ever with the same content. */
  lemma {:induction false} CreateOnce(cfg: Config, s: Sys, log: seq<Event>, n: string)
    requires n in s.secrets && s.secrets.Keys == s.writtenBy.Keys
    ensures var t := Run(cfg, s, log);
            && t.secrets.Keys == t.writtenBy.Keys
            && n in t.secrets && t.secrets[n] == s.secrets[n] && t.writtenBy[n] == s.writtenBy[n]
  {
    if log != [] {
      CreateOnce(cfg, s, log[..|log| - 1], n);
    }
  }

  predicate NoneBy(log: seq<Event>, p: Pid) {
    forall e | e in log :: By(e) != Some(p)
  }

  predicate AllBy(log: seq<Event>, p: Pid) {
    forall e | e in log :: By(e) == Some(p)
  }

  // Who can have written a secret that a stretch of the log added.
  lemma {:induction false} WriterTookPart(cfg: Config, s: Sys, log: seq<Event>, n: string)
    requires s.secrets.Keys == s.writtenBy.Keys
    requires n !in s.secrets && n in Run(cfg, s, log).secrets
    ensures n in Run(cfg, s, log).writtenBy
    ensures exists e | e in log :: By(e) == Some(Run(cfg, s, log).writtenBy[n])
  {
    var early, e := log[..|log| - 1], log[|log| - 1];
    var t := Run(cfg, s, early);
    if n in t.secrets {
      WriterTookPart(cfg, s, early, n);
      assert n in t.writtenBy;
    } else {
      WritersCover(cfg, s, early);
      assert By(e) == Some(Run(cfg, s, log).writtenBy[n]);
    }
  }

  lemma {:induction false} WritersCover(cfg: Config, s: Sys, log: seq<Event>)
    requires s.secrets.Keys == s.writtenBy.Keys
    ensures Run(cfg, s, log).secrets.Keys == Run(cfg, s, log).writtenBy.Keys
  {
    if log != [] {
      WritersCover(cfg, s, log[..|log| - 1]);
    }
  }

  /** A leaf that is missing when the writer of its CA stops is never signed by that CA: whoever writes it
      later signs it with a key the store has never seen, and no run ever repairs it. */
  lemma CutRunIsNeverRepaired(cfg: Config, log: seq<Event>, more: seq<Event>, ca: string, leaf: string)
    requires WellFormed(cfg) && ca in cfg.tree && leaf in cfg.tree[ca]
    requires var s := Run(cfg, InitialState(), log);
             ca in s.secrets && leaf !in s.secrets && ca in s.writtenBy && NoneBy(more, s.writtenBy[ca])
    ensures !Coherent(Run(cfg, InitialState(), log + more), ca, leaf)
  {
    var s, t := Run(cfg, InitialState(), log), Run(cfg, InitialState(), log + more);
    EveryRunIsSafe(cfg, log);
    RunAppend(cfg, InitialState(), log, more);
    if leaf in t.secrets {
      CoherentIffSameWriter(cfg, log + more, ca, leaf);
      WriterTookPart(cfg, s, more, leaf);
      CreateOnce(cfg, s, more, ca);
    }
  }

  /** Whether a pair is coherent is settled once both are stored. */
  lemma CoherenceIsSettled(cfg: Config, log: seq<Event>, more: seq<Event>, ca: string, leaf: string)
    requires WellFormed(cfg) && ca in cfg.tree && leaf in cfg.tree[ca]
    requires leaf in Run(cfg, InitialState(), log).secrets
    ensures Coherent(Run(cfg, InitialState(), log + more), ca, leaf) <==>
              Coherent(Run(cfg, InitialState(), log), ca, leaf)
  {
    var s := Run(cfg, InitialState(), log);
    EveryRunIsSafe(cfg, log);
    RunAppend(cfg, InitialState(), log, more);
    CreateOnce(cfg, s, more, ca);
    CreateOnce(cfg, s, more, leaf);
  }

  // --- Completion -----------------------------------------------------------------------------------------

  // A control-plane reconcile that got past its certificate phase.
  predicate PastCertificates(cfg: Config, s: Sys, p: Pid) {
    IsControlPlane(s, p) && AllNames(cfg.tree) <= s.procs[p].done
  }

  lemma PastMeansComplete(cfg: Config, s: Sys, p: Pid)
    requires Safe(cfg, s) && PastCertificates(cfg, s, p)
    ensures s.secrets.Keys == AllNames(cfg.tree)
  {
    assert s.procs[p].done <= s.secrets.Keys;
  }

  lemma NoNameBeyond(cfg: Config, s: Sys)
    requires Safe(cfg, s)
    ensures s.secrets.Keys <= AllNames(cfg.tree) && s.secrets.Keys == s.writtenBy.Keys
  {
  }

  /** One reconcile that gets past its certificates, after any number that did not, leaves all names stored,
      and from then on the secrets never change again, whatever runs. */
  lemma CompletedOnceFixedForever(cfg: Config, log: seq<Event>, p: Pid, more: seq<Event>)
    requires WellFormed(cfg) && PastCertificates(cfg, Run(cfg, InitialState(), log), p)
    ensures Run(cfg, InitialState(), log).secrets.Keys == AllNames(cfg.tree)
    ensures Run(cfg, InitialState(), log + more).secrets == Run(cfg, InitialState(), log).secrets
  {
    var s, t := Run(cfg, InitialState(), log), Run(cfg, InitialState(), log + more);
    assert s.secrets.Keys == AllNames(cfg.tree) && s.secrets.Keys == s.writtenBy.Keys by {
      EveryRunIsSafe(cfg, log);
      PastMeansComplete(cfg, s, p);
      NoNameBeyond(cfg, s);
    }
    assert t.secrets.Keys <= AllNames(cfg.tree) by {
      EveryRunIsSafe(cfg, log + more);
      NoNameBeyond(cfg, t);
    }
    RunAppend(cfg, InitialState(), log, more);
    forall n | n in s.secrets ensures n in t.secrets && t.secrets[n] == s.secrets[n] {
      CreateOnce(cfg, s, more, n);
    }
  }

  // --- No order matters -----------------------------------------------------------------------------------

  // What one reconcile running alone leaves behind, in terms of what it found.
  lemma SoloOutcome(cfg: Config, log: seq<Event>, solo: seq<Event>, p: Pid, ca: string, leaf: string)
    requires WellFormed(cfg) && ca in cfg.tree && leaf in cfg.tree[ca]
    requires AllBy(solo, p) && p !in Run(cfg, InitialState(), log).procs
    requires PastCertificates(cfg, Run(cfg, InitialState(), log + solo), p)
    ensures var s, t := Run(cfg, InitialState(), log), Run(cfg, InitialState(), log + solo);
            Coherent(t, ca, leaf) <==> Coherent(s, ca, leaf) || (ca !in s.secrets && leaf !in s.secrets)
  {
    var s, t := Run(cfg, InitialState(), log), Run(cfg, InitialState(), log + solo);
    EveryRunIsSafe(cfg, log);
    EveryRunIsSafe(cfg, log + solo);
    RunAppend(cfg, InitialState(), log, solo);
    CompletedOnceFixedForever(cfg, log + solo, p, []);
    assert leaf in LeafNames(cfg.tree);
    assert ca in t.secrets && leaf in t.secrets;
    SafeCoherence(cfg, t, ca, leaf);
    if leaf in s.secrets {
      SafeCoherence(cfg, s, ca, leaf);
      CreateOnce(cfg, s, solo, ca);
      CreateOnce(cfg, s, solo, leaf);
    } else {
      WriterTookPart(cfg, s, solo, leaf);
      if ca in s.secrets {
        CreateOnce(cfg, s, solo, ca);
        WriterIsKnown(cfg, s, ca);
      } else {
        WriterTookPart(cfg, s, solo, ca);
      }
    }
  }

  // Whoever wrote a CA is one of the reconciles of the past.
  lemma WriterIsKnown(cfg: Config, s: Sys, ca: string)
    requires KeysTraced(cfg, s) && ca in cfg.tree && ca in s.secrets
    ensures s.writtenBy[ca] in s.procs
  {
    var k := s.secrets[ca].key;
    assert IssuedBy(s.issued, k, s.writtenBy[ca], ca);
    assert Holds(s.procs, s.issued[k].pid, s.issued[k].name, k);
  }

  /** Two reconciles that each complete alone from the same state, whatever orders their maps are iterated
      in, store the same names and agree on which leaf matches its CA. */
  lemma MapOrderIsIrrelevant(cfg: Config, log: seq<Event>, solo1: seq<Event>, p1: Pid, solo2: seq<Event>, p2: Pid,
                             ca: string, leaf: string)
    requires WellFormed(cfg) && ca in cfg.tree && leaf in cfg.tree[ca]
    requires AllBy(solo1, p1) && AllBy(solo2, p2)
    requires p1 !in Run(cfg, InitialState(), log).procs && p2 !in Run(cfg, InitialState(), log).procs
    requires PastCertificates(cfg, Run(cfg, InitialState(), log + solo1), p1)
    requires PastCertificates(cfg, Run(cfg, InitialState(), log + solo2), p2)
    ensures Run(cfg, InitialState(), log + solo1).secrets.Keys == Run(cfg, InitialState(), log + solo2).secrets.Keys
    ensures Coherent(Run(cfg, InitialState(), log + solo1), ca, leaf) <==>
              Coherent(Run(cfg, InitialState(), log + solo2), ca, leaf)
  {
    CompletedOnceFixedForever(cfg, log + solo1, p1, []);
    CompletedOnceFixedForever(cfg, log + solo2, p2, []);
    SoloOutcome(cfg, log, solo1, p1, ca, leaf);
    SoloOutcome(cfg, log, solo2, p2, ca, leaf);
  }

  // --- A reconcile left alone completes ---------------------------------------------------------------------

  predicate IsCertificateTask(t: Task) {
    t.NewCA? || IsPut(t)
  }

  // The calls that take a reconcile past one certificate task when nothing fails.
  function Attempt(s: Sys, p: Pid): seq<Event>
    requires At(s, p)
  {
    var t, pr := Current(s, p), s.procs[p];
    if !IsPut(t) then [CAGenerated(p)]
    else if NameOf(t) in s.secrets then [SecretFound(p)]
    else if pr.missing then [SecretCreated(p)]
    else [SecretMissing(p), SecretCreated(p)]
  }

  // The reconcile is not about to create a secret that its Get did not find but that is stored.
  predicate CanGoOn(s: Sys, p: Pid)
    requires p in s.procs
  {
    s.procs[p].missing ==> At(s, p) && IsPut(Current(s, p)) && NameOf(Current(s, p)) !in s.secrets
  }

  /** The condition is exact: where it fails, no calls of the reconcile alone get it any further. */
  lemma {:induction false} ElseItIsStuck(cfg: Config, s: Sys, p: Pid, solo: seq<Event>)
    requires At(s, p) && IsPut(Current(s, p)) && !CanGoOn(s, p) && AllBy(solo, p)
    ensures Run(cfg, s, solo) == s
  {
    if solo != [] {
      var n := |solo| - 1;
      ElseItIsStuck(cfg, s, p, solo[..n]);
      assert By(solo[n]) == Some(p);
    }
  }

  // Between these states nothing happened but to certificates.
  predicate RestStays(s: Sys, t: Sys) {
    && t.machines == s.machines && t.pods == s.pods && t.services == s.services && t.born == s.born
    && t.nextUid == s.nextUid && t.everOpen == s.everOpen
  }

  lemma AttemptTouchesCertificatesOnly(cfg: Config, s: Sys, p: Pid)
    requires At(s, p)
    ensures RestStays(s, Run(cfg, s, Attempt(s, p)))
  {
    hide Run, Next;
    var a := Attempt(s, p);
    ShortRun(cfg, s, a[0], a[|a| - 1]);
    CertificateEvent(cfg, s, a[0]);
    if |a| == 2 {
      CertificateEvent(cfg, Next(cfg, s, a[0]), a[1]);
    }
  }

  lemma CertificateEvent(cfg: Config, s: Sys, e: Event)
    requires e.CAGenerated? || e.SecretFound? || e.SecretMissing? || e.SecretCreated?
    ensures RestStays(s, Next(cfg, s, e))
  {
  }

  lemma AttemptSucceeds(cfg: Config, s: Sys, p: Pid)
    requires AllTyped(cfg, s) && At(s, p) && IsCertificateTask(Current(s, p)) && CanGoOn(s, p)
    ensures AllBy(Attempt(s, p), p)
    ensures var t := Run(cfg, s, Attempt(s, p));
            && p in t.procs && t.procs[p].todo == s.procs[p].todo[1..] && !t.procs[p].missing
            && t.procs[p].actor == s.procs[p].actor
            && t.procs[p].done == s.procs[p].done + Learnt(cfg, Current(s, p))
  {
    hide Run;
    var pr, a := s.procs[p], Attempt(s, p);
    assert Typed(cfg, pr) && Allowed(cfg, pr.actor, Current(s, p), pr.done, pr.keys.Keys);
    hide Typed, Allowed, Next;
    ShortRun(cfg, s, a[0], a[|a| - 1]);
    if |a| == 1 {
      StepSucceeds(cfg, s, p, a[0]);
    } else {
      MissChangesNothingElse(cfg, s, p);
      StepSucceeds(cfg, Next(cfg, s, a[0]), p, a[1]);
    }
  }

  // The event that takes a reconcile past a certificate task.
  lemma StepSucceeds(cfg: Config, s: Sys, p: Pid, e: Event)
    requires At(s, p) && IsCertificateTask(Current(s, p)) && HoldsKey(Current(s, p), s.procs[p].keys)
    requires e == (if Current(s, p).NewCA? then CAGenerated(p)
                   else if s.procs[p].missing then SecretCreated(p) else SecretFound(p))
    requires IsPut(Current(s, p)) ==> (NameOf(Current(s, p)) in s.secrets <==> !s.procs[p].missing)
    ensures var t := Next(cfg, s, e);
            && p in t.procs && t.procs[p].todo == s.procs[p].todo[1..] && !t.procs[p].missing
            && t.procs[p].actor == s.procs[p].actor
            && t.procs[p].done == s.procs[p].done + Learnt(cfg, Current(s, p))
  {
    var todo := s.procs[p].todo;
    assert Enabled(cfg, s, e);
    assert [] + todo[1..] == todo[1..];
    assert Next(cfg, s, e).procs[p] == ProcAfter(cfg, s, e);
  }

  lemma MissChangesNothingElse(cfg: Config, s: Sys, p: Pid)
    requires At(s, p) && IsPut(Current(s, p)) && !s.procs[p].missing
    ensures var t := Next(cfg, s, SecretMissing(p));
            t.secrets == s.secrets && p in t.procs && t.procs[p] == s.procs[p].(missing := true)
  {
  }

  lemma ShortRun(cfg: Config, s: Sys, e: Event, e': Event)
    ensures Run(cfg, s, [e]) == Next(cfg, s, e)
    ensures Run(cfg, s, [e, e']) == Next(cfg, Next(cfg, s, e), e')
  {
    hide Next;
    assert [e][..0] == [] && [e, e'][..1] == [e];
  }

  predicate AllCertificateTasks(tasks: seq<Task>) {
    forall t | t in tasks :: IsCertificateTask(t)
  }

  function Puts(tasks: seq<Task>): set<string> {
    set t | t in tasks && IsPut(t) :: NameOf(t)
  }

  // `t` is `s` with reconcile `p` past `tasks`, before `rest`.
  predicate GotPast(s: Sys, t: Sys, p: Pid, tasks: seq<Task>, rest: seq<Task>) {
    && p in s.procs && p in t.procs
    && t.procs[p].todo == rest && t.procs[p].actor == s.procs[p].actor && !t.procs[p].missing
    && s.procs[p].done + Puts(tasks) <= t.procs[p].done
  }

  lemma GotPastBoth(s: Sys, s': Sys, t: Sys, p: Pid, tasks: seq<Task>, rest: seq<Task>)
    requires tasks != [] && GotPast(s, s', p, [tasks[0]], tasks[1..] + rest)
    requires GotPast(s', t, p, tasks[1..], rest)
    ensures GotPast(s, t, p, tasks, rest)
  {
    forall n | n in Puts(tasks) ensures n in t.procs[p].done {
      var x :| x in tasks && IsPut(x) && NameOf(x) == n;
      assert tasks == [tasks[0]] + tasks[1..];
      if x == tasks[0] {
        assert x in [tasks[0]];
        assert n in Puts([tasks[0]]);
      } else {
        assert n in Puts(tasks[1..]);
      }
    }
  }

  /** From any reachable state, a reconcile whose next tasks are certificate tasks can complete them by its own
      calls alone, unless it is about to create a secret that has been stored since it looked: nothing an earlier
      run left behind blocks it. */
  lemma {:induction false} LeftAloneItCompletes(cfg: Config, s: Sys, p: Pid, tasks: seq<Task>, rest: seq<Task>)
    returns (solo: seq<Event>)
    requires WellFormed(cfg) && Safe(cfg, s) && p in s.procs && CanGoOn(s, p)
    requires s.procs[p].todo == tasks + rest && AllCertificateTasks(tasks) && (s.procs[p].missing ==> tasks != [])
    ensures AllBy(solo, p) && Safe(cfg, Run(cfg, s, solo))
    ensures GotPast(s, Run(cfg, s, solo), p, tasks, rest) && RestStays(s, Run(cfg, s, solo))
    decreases |tasks|
  {
    if tasks == [] {
      solo := [];
      assert tasks + rest == rest;
    } else {
      assert s.procs[p].todo[0] == tasks[0] && tasks[0] in tasks;
      var first := Attempt(s, p);
      var s' := Run(cfg, s, first);
      assert (tasks + rest)[1..] == tasks[1..] + rest;
      AttemptGetsPast(cfg, s, p, tasks[1..] + rest);
      AttemptTouchesCertificatesOnly(cfg, s, p);
      RunKeepsSafe(cfg, s, first);
      assert AllCertificateTasks(tasks[1..]);
      var later := LeftAloneItCompletes(cfg, s', p, tasks[1..], rest);
      solo := first + later;
      RunAppend(cfg, s, first, later);
      GotPastBoth(s, s', Run(cfg, s, solo), p, tasks, rest);
    }
  }

  lemma AttemptGetsPast(cfg: Config, s: Sys, p: Pid, rest: seq<Task>)
    requires Safe(cfg, s) && At(s, p) && IsCertificateTask(Current(s, p)) && CanGoOn(s, p)
    requires rest == s.procs[p].todo[1..]
    ensures AllBy(Attempt(s, p), p) && GotPast(s, Run(cfg, s, Attempt(s, p)), p, [Current(s, p)], rest)
  {
    AttemptSucceeds(cfg, s, p);
    assert Puts([Current(s, p)]) <= Learnt(cfg, Current(s, p));
  }
}
