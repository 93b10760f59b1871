/** The order in which things come to exist, in every run: any interleaving of reconciles, any failed call, any
    crash. Nothing here is read off one program; it is what all of them together never do out of order. */
module Ordering {
  import opened Names
  import opened Protocol
  import opened Safety
  import opened CertificateHistory

  /** A stored leaf has its CA, the service-account key the whole tree, the kubeconfig all of these. */
  lemma SecretsComeInOrder(cfg: Config, log: seq<Event>, ca: string, leaf: string)
    requires WellFormed(cfg) && ca in cfg.tree && leaf in cfg.tree[ca]
    ensures var stored := Run(cfg, InitialState(), log).secrets.Keys;
            && (leaf in stored ==> ca in stored)
            && (SA in stored ==> TreeNames(cfg.tree) <= stored)
            && (KUBECONFIG in stored ==> stored == AllNames(cfg.tree))
  {
    EveryRunIsSafe(cfg, log);
  }

  /** A pod of a machine that the control plane made refers to no secret that is not stored. */
  lemma PodsMountStoredSecrets(cfg: Config, log: seq<Event>, u: Uid, mount: string)
    requires WellFormed(cfg)
    requires var s := Run(cfg, InitialState(), log);
             u in s.pods && s.pods[u].owner.Some? && mount in s.pods[u].mounts &&
             (s.pods[u].owner.value in s.born ==> s.born[s.pods[u].owner.value] == cfg.kcp)
    ensures exists n | n in Run(cfg, InitialState(), log).secrets :: mount == SecretName(cfg.cluster, n)
  {
    var s := Run(cfg, InitialState(), log);
    EveryRunIsSafe(cfg, log);
    SafeMounts(cfg, s, u);
    var n :| n in AllNames(cfg.tree) && mount == SecretName(cfg.cluster, n);
    assert n in s.secrets;
  }

  lemma SafeMounts(cfg: Config, s: Sys, u: Uid)
    requires Safe(cfg, s) && u in s.pods && s.pods[u].owner.Some?
    requires s.pods[u].owner.value in s.born ==> s.born[s.pods[u].owner.value] == cfg.kcp
    ensures AllNames(cfg.tree) <= s.secrets.Keys && Mounts(cfg, AllNames(cfg.tree), s.pods[u].mounts)
  {
  }

  /** In every run every reconcile of the control plane is for a cluster with a host and a port. */
  lemma EveryGateHasAnEndpoint(cfg: Config, log: seq<Event>, p: Pid)
    requires WellFormed(cfg) && IsControlPlane(Run(cfg, InitialState(), log), p)
    ensures var spec := Run(cfg, InitialState(), log).procs[p].actor.spec; spec.host != "" && spec.port != 0
  {
    EveryRunIsSafe(cfg, log);
    OpenWasOpen(cfg, log);
  }

  // The cluster was ready at some moment of a log that says so.
  lemma {:induction false} ReadyAtSomeMoment(cfg: Config, log: seq<Event>) returns (i: nat)
    requires Run(cfg, InitialState(), log).everOpen != {}
    ensures i <= |log| && Run(cfg, InitialState(), log[..i]).open.Some?
  {
    var n := |log| - 1;
    if Run(cfg, InitialState(), log[..n]).everOpen != {} {
      i := ReadyAtSomeMoment(cfg, log[..n]);
      assert log[..n][..i] == log[..i];
    } else {
      i := |log|;
      assert log[..i] == log;
    }
  }

  // The moment a machine came to exist.
  lemma {:induction false} BornAtSomeMoment(cfg: Config, log: seq<Event>, m: Uid) returns (j: nat)
    requires m in Run(cfg, InitialState(), log).born
    ensures j < |log| && m !in Run(cfg, InitialState(), log[..j]).born &&
              m in Run(cfg, InitialState(), log[..j + 1]).born
  {
    var n := |log| - 1;
    if m in Run(cfg, InitialState(), log[..n]).born {
      j := BornAtSomeMoment(cfg, log[..n], m);
      assert log[..n][..j] == log[..j] && log[..n][..j + 1] == log[..j + 1];
    } else {
      j := n;
      assert log[..n + 1] == log;
    }
  }

  lemma BirthComesLate(cfg: Config, s: Sys, e: Event, m: Uid)
    requires Safe(cfg, s) && m !in s.born && m in Next(cfg, s, e).born && Next(cfg, s, e).born[m] == cfg.kcp
    ensures AllNames(cfg.tree) <= s.secrets.Keys && s.everOpen != {}
  {
    assert e.MachineAdded? && Enabled(cfg, s, e);
    AdderKnowsSecrets(cfg, s, e.p);
  }

  lemma {:induction false} BornOnce(cfg: Config, s: Sys, more: seq<Event>, m: Uid)
    requires WellFormed(cfg) && Safe(cfg, s) && m in s.born
    ensures m in Run(cfg, s, more).born && Run(cfg, s, more).born[m] == s.born[m]
  {
    hide Safe;
    if more != [] {
      var n := |more| - 1;
      BornOnce(cfg, s, more[..n], m);
      RunKeepsSafe(cfg, s, more[..n]);
      BirthStays(cfg, Run(cfg, s, more[..n]), more[n], m);
    }
  }

  lemma BirthStays(cfg: Config, s: Sys, e: Event, m: Uid)
    requires Safe(cfg, s) && m in s.born
    ensures m in Next(cfg, s, e).born && Next(cfg, s, e).born[m] == s.born[m]
  {
    assert m < s.nextUid;
  }

  /** Before the control plane made its first machine, all seven secrets were stored and the cluster had been
      ready with a host and a port: `i` is such a moment, `j` the moment the machine was made. */
  lemma MachinesComeLast(cfg: Config, log: seq<Event>, m: Uid) returns (i: nat, j: nat)
    requires WellFormed(cfg)
    requires var s := Run(cfg, InitialState(), log); m in s.born && s.born[m] == cfg.kcp
    ensures i <= j < |log| && m !in Run(cfg, InitialState(), log[..j]).born
    ensures var open := Run(cfg, InitialState(), log[..i]).open;
            open.Some? && open.value.host != "" && open.value.port != 0
    ensures Run(cfg, InitialState(), log[..j]).secrets.Keys == AllNames(cfg.tree)
  {
    hide Safe, Run, WellFormed, Next;
    var init := InitialState();
    j := BornAtSomeMoment(cfg, log, m);
    var s := Run(cfg, init, log[..j]);
    EveryRunIsSafe(cfg, log[..j]);
    EveryRunIsSafe(cfg, log[..j + 1]);
    assert log == log[..j + 1] + log[j + 1..];
    RunAppend(cfg, init, log[..j + 1], log[j + 1..]);
    BornOnce(cfg, Run(cfg, init, log[..j + 1]), log[j + 1..], m);
    RunStep(cfg, init, log, j);
    BirthComesLate(cfg, s, log[j], m);
    NoNameBeyond(cfg, s);
    i := ReadyAtSomeMoment(cfg, log[..j]);
    assert log[..j][..i] == log[..i];
    OpenWasOpen(cfg, log[..i]);
  }

  // --- The shared service ---------------------------------------------------------------------------------

  /** However many machines reconcile, there is at most the one etcd service; once it exists neither it nor its
      owner ever changes. */
  lemma {:induction false} EtcdServiceIsUnique(cfg: Config, log: seq<Event>, more: seq<Event>)
    requires WellFormed(cfg)
    ensures var name := EtcdServiceName(cfg.cluster);
            var s, t := Run(cfg, InitialState(), log), Run(cfg, InitialState(), log + more);
            && name == cfg.cluster + "-etcd-svc" && s.services.Keys <= {name}
            && (name in s.services ==> (
                  var labels := map["cluster.x-k8s.io/cluster-name" := cfg.cluster, "kink.openbce.io/role" := "etcd"];
                  s.services[name].selector == labels && s.services[name].labels == labels
                  && s.services[name].owner in s.born))
            && (name in s.services ==> t.services == s.services)
    decreases |more|
  {
    hide Safe, WellFormed;
    EveryRunIsSafe(cfg, log);
    OnlyOne(cfg, Run(cfg, InitialState(), log));
    if more == [] {
      assert log + more == log;
    } else {
      var n := |more| - 1;
      EtcdServiceIsUnique(cfg, log, more[..n]);
      assert (log + more)[..|log + more| - 1] == log + more[..n];
    }
  }

  lemma OnlyOne(cfg: Config, s: Sys)
    requires Safe(cfg, s)
    ensures s.services.Keys <= {EtcdServiceName(cfg.cluster)}
    ensures forall n | n in s.services ::
              s.services[n].owner in s.born && s.services[n] == EtcdService(cfg.cluster, s.services[n].owner)
  {
  }
}
