/** The pods and the service the operator ships templates for. */
module Templates {
  import opened Names
  import opened Protocol
  import opened Safety
  import opened Readiness
  import opened CertificatesManager
  import opened PodPasses
  import opened PodRuns
  import opened PodGrowth
  import opened ReadinessExact
  import opened ReadyAtRest

  const API_SERVER := "apiserver"
  const SCHEDULER := "scheduler"
  const CONTROLLER_MANAGER := "controller-manager"

  function RoleLabels(cluster: string, role: string): Labels {
    map[CLUSTER_LABEL := cluster, ROLE_LABEL := role]
  }

  function EtcdPodTemplate(cluster: string): PodTemplate {
    PodTemplate(RoleLabels(cluster, ETCD), "openbce/etcd:3.5.3-0", MountedSecrets(cluster))
  }

  function ApiServerPodTemplate(cluster: string): PodTemplate {
    PodTemplate(RoleLabels(cluster, API_SERVER), "openbce/kube-apiserver:v1.24.1", MountedSecrets(cluster))
  }

  function ControllerManagerPodTemplate(cluster: string): PodTemplate {
    PodTemplate(
      RoleLabels(cluster, CONTROLLER_MANAGER), "openbce/kube-controller-manager:v1.24.1", MountedSecrets(cluster))
  }

  // The scheduler's pod carries the label of the API server.
  function SchedulerPodTemplate(cluster: string): PodTemplate {
    PodTemplate(RoleLabels(cluster, API_SERVER), "openbce/kube-scheduler:v1.24.1", MountedSecrets(cluster))
  }

  function ControlPlanePodTemplates(cluster: string): Table {
    map[ETCD := EtcdPodTemplate(cluster),
        API_SERVER := ApiServerPodTemplate(cluster),
        CONTROLLER_MANAGER := ControllerManagerPodTemplate(cluster),
        SCHEDULER := SchedulerPodTemplate(cluster)]
  }

  function ShippedConfig(cluster: string, kcp: Uid, lib: Library): Config {
    Config(cluster, kcp, ShippedTreeNames(), ControlPlanePodTemplates(cluster), lib)
  }

  /** What is proved of well-formed configurations holds of the shipped one. */
  lemma ShippedConfigIsWellFormed(cluster: string, kcp: Uid, lib: Library)
    ensures WellFormed(ShippedConfig(cluster, kcp, lib))
  {
    ShippedTreeIsTwoLevel();
    PodsMountWhatIsWritten(cluster);
    var cfg := ShippedConfig(cluster, kcp, lib);
    assert Mounts(cfg, AllNames(cfg.tree), MountedSecrets(cluster)) by {
      hide ShippedTreeNames, MountedSecrets, MountedCerts;
      forall m | m in MountedSecrets(cluster)
        ensures exists n | n in AllNames(cfg.tree) :: m == SecretName(cluster, n)
      {
        assert m in (set x | x in MountedSecrets(cluster));
        var n :| n in TreeNames(ShippedTreeNames()) + {SA} && SecretName(cluster, n) == m;
        assert n in AllNames(cfg.tree);
      }
    }
  }

  /** One entry of the table, the scheduler's, is not labelled with its role, and no other entry makes up for
      it; every template is labelled with its cluster. */
  lemma OnlyTheSchedulerIsMislabelled(cluster: string, role: string)
    requires role in ControlPlanePodTemplates(cluster)
    ensures RoleOf(ControlPlanePodTemplates(cluster)[role].labels) == Some(role) <==> role != SCHEDULER
    ensures Unlabelled(ControlPlanePodTemplates(cluster), role) <==> role == SCHEDULER
    ensures ControlPlanePodTemplates(cluster)[role].labels[CLUSTER_LABEL] == cluster
  {
    assert API_SERVER != SCHEDULER && ETCD != SCHEDULER && CONTROLLER_MANAGER != SCHEDULER;
    var table := ControlPlanePodTemplates(cluster);
    if role != SCHEDULER {
      assert RoleOf(table[role].labels) == Some(role);
    }
  }

  /** In every run only the seven shipped names are stored, and each certificate with a CA was signed by a key that
      its own writer had generated for that CA. */
  lemma ShippedSecrets(cluster: string, kcp: Uid, lib: Library, log: seq<Event>)
    ensures var s := Run(ShippedConfig(cluster, kcp, lib), InitialState(), log);
            && s.secrets.Keys <= {"ca", "apiserver", "kubelet-client", "front-proxy-ca", "front-proxy-client", "sa",
                                  "kubeconfig"}
            && forall n | n in s.secrets && n in {"apiserver", "kubelet-client", "front-proxy-client"} ::
                 var ca := if n == "front-proxy-client" then "front-proxy-ca" else "ca";
                 && n in s.writtenBy && s.secrets[n].signer in s.issued
                 && s.issued[s.secrets[n].signer] == Issue(s.writtenBy[n], ca)
  {
    hide Run, WellFormed, ControlPlanePodTemplates;
    ShippedConfigIsWellFormed(cluster, kcp, lib);
    var cfg := ShippedConfig(cluster, kcp, lib);
    EveryRunIsSafe(cfg, log);
    SignedByTheWriter(cfg, Run(cfg, InitialState(), log));
    ShippedTreeIsTwoLevel();
  }

  lemma SignedByTheWriter(cfg: Config, s: Sys)
    requires Safe(cfg, s) && cfg.tree == ShippedTreeNames()
    ensures s.secrets.Keys <= AllNames(cfg.tree) && s.secrets.Keys == s.writtenBy.Keys
    ensures forall n | n in s.secrets && n in {"apiserver", "kubelet-client", "front-proxy-client"} ::
              IssuedBy(s.issued, s.secrets[n].signer, s.writtenBy[n],
                       if n == "front-proxy-client" then "front-proxy-ca" else "ca")
  {
    forall n | n in s.secrets && n in {"apiserver", "kubelet-client", "front-proxy-client"}
      ensures IssuedBy(s.issued, s.secrets[n].signer, s.writtenBy[n],
                       if n == "front-proxy-client" then "front-proxy-ca" else "ca")
    {
      var ca := if n == "front-proxy-client" then "front-proxy-ca" else "ca";
      assert ca in cfg.tree && n in cfg.tree[ca];
    }
  }

  // --- What pods are made of ------------------------------------------------------------------------------

  // The role that labels a pod with one of the shipped images.
  function LabelledRole(image: string): string {
    if image == "openbce/etcd:3.5.3-0" then "etcd"
    else if image == "openbce/kube-controller-manager:v1.24.1" then "controller-manager"
    else "apiserver"
  }

  lemma ShippedTemplate(cluster: string, role: string)
    requires role in ControlPlanePodTemplates(cluster)
    ensures var t := ControlPlanePodTemplates(cluster)[role];
            && t.image == (match role
                           case "etcd" => "openbce/etcd:3.5.3-0"
                           case "apiserver" => "openbce/kube-apiserver:v1.24.1"
                           case "controller-manager" => "openbce/kube-controller-manager:v1.24.1"
                           case _ => "openbce/kube-scheduler:v1.24.1")
            && role in {"etcd", "apiserver", "controller-manager", "scheduler"}
            && t.labels == map["cluster.x-k8s.io/cluster-name" := cluster,
                               "kink.openbce.io/role" := LabelledRole(t.image)]
            && t.mounts == MountedSecrets(cluster)
  {
    var image := ControlPlanePodTemplates(cluster)[role].image;
    assert role != ETCD ==> image[8] != "openbce/etcd:3.5.3-0"[8];
    assert role != CONTROLLER_MANAGER && role != ETCD ==> image[13] != "openbce/kube-controller-manager:v1.24.1"[13];
  }

  /** In every run a pod that a machine owns has one of the four images, is labelled with its cluster and a role,
      the scheduler's with the API server's, and mounts the six secrets that are written before the kubeconfig. */
  lemma OwnedPodsAreShippedPods(cluster: string, kcp: Uid, lib: Library, log: seq<Event>, u: Uid)
    requires var s := Run(ShippedConfig(cluster, kcp, lib), InitialState(), log); u in s.pods && s.pods[u].owner.Some?
    ensures var pod := Run(ShippedConfig(cluster, kcp, lib), InitialState(), log).pods[u];
            && pod.image in {"openbce/etcd:3.5.3-0", "openbce/kube-apiserver:v1.24.1",
                             "openbce/kube-controller-manager:v1.24.1", "openbce/kube-scheduler:v1.24.1"}
            && pod.labels == map["cluster.x-k8s.io/cluster-name" := cluster,
                                 "kink.openbce.io/role" := LabelledRole(pod.image)]
            && |pod.mounts| == 6
            && (forall i | 0 <= i < 6 ::
                  pod.mounts[i] == cluster + "-" +
                    ["ca", "apiserver", "kubelet-client", "front-proxy-ca", "front-proxy-client", "sa"][i])
            && (set mount | mount in pod.mounts)
               == (set n | n in TreeNames(ShippedTreeNames()) + {"sa"} :: cluster + "-" + n)
  {
    hide Run, ControlPlanePodTemplates, ShippedTreeNames, LabelledRole, TreeNames;
    var cfg := ShippedConfig(cluster, kcp, lib);
    OwnedPodsAreMadeFromTemplates(cfg, log, u);
    var role :| MadeFrom(cfg.table, role, Run(cfg, InitialState(), log).pods[u]);
    ShippedTemplate(cluster, role);
    PodsMountWhatIsWritten(cluster);
  }

  // --- The etcd service -----------------------------------------------------------------------------------

  predicate Selects(selector: Labels, labels: Labels) {
    forall k | k in selector :: k in labels && labels[k] == selector[k]
  }

  lemma SelectorSelectsEtcdOnly(cluster: string, owner: Uid, role: string)
    requires role in ControlPlanePodTemplates(cluster)
    ensures Selects(EtcdService(cluster, owner).selector, ControlPlanePodTemplates(cluster)[role].labels) <==>
              role == ETCD
  {
    var labels := ControlPlanePodTemplates(cluster)[role].labels;
    assert API_SERVER != ETCD && SCHEDULER != ETCD && CONTROLLER_MANAGER != ETCD;
    assert RoleOf(labels) == Some(ETCD) <==> role == ETCD;
    assert ROLE_LABEL in EtcdService(cluster, owner).selector;
  }

  /** Whatever ran, the etcd service of a cluster selects exactly the etcd pods among those its machines own. */
  lemma EtcdServiceSelectsTheEtcdPods(cluster: string, kcp: Uid, lib: Library, log: seq<Event>, name: string, u: Uid)
    requires var s := Run(ShippedConfig(cluster, kcp, lib), InitialState(), log);
             name in s.services && u in s.pods && s.pods[u].owner.Some?
    ensures var s := Run(ShippedConfig(cluster, kcp, lib), InitialState(), log);
            Selects(s.services[name].selector, s.pods[u].labels) <==> s.pods[u].image == "openbce/etcd:3.5.3-0"
  {
    hide Run, WellFormed, ControlPlanePodTemplates, ShippedTreeNames, Safe, Selects, EtcdPodTemplate;
    var cfg := ShippedConfig(cluster, kcp, lib);
    var s := Run(cfg, InitialState(), log);
    ShippedConfigIsWellFormed(cluster, kcp, lib);
    ServiceIsTheEtcdService(cfg, log, name);
    OwnedPodsAreMadeFromTemplates(cfg, log, u);
    var role :| MadeFrom(cfg.table, role, s.pods[u]);
    SelectorSelectsEtcdOnly(cluster, s.services[name].owner, role);
    OnlyEtcdHasTheEtcdImage(cluster, role);
  }

  lemma ServiceIsTheEtcdService(cfg: Config, log: seq<Event>, name: string)
    requires WellFormed(cfg) && name in Run(cfg, InitialState(), log).services
    ensures var svc := Run(cfg, InitialState(), log).services[name]; svc == EtcdService(cfg.cluster, svc.owner)
  {
    EveryRunIsSafe(cfg, log);
  }

  lemma OnlyEtcdHasTheEtcdImage(cluster: string, role: string)
    requires role in ControlPlanePodTemplates(cluster)
    ensures ControlPlanePodTemplates(cluster)[role].image == "openbce/etcd:3.5.3-0" <==> role == ETCD
  {
    assert API_SERVER != ETCD && SCHEDULER != ETCD && CONTROLLER_MANAGER != ETCD;
    var image := EtcdPodTemplate(cluster).image;
    assert image[8] != ApiServerPodTemplate(cluster).image[8];
    assert image[8] != SchedulerPodTemplate(cluster).image[8];
    assert image[8] != ControllerManagerPodTemplate(cluster).image[8];
  }

  /** With two clusters in a namespace, the etcd service of one never selects a pod of the other's machines. */
  lemma OtherClustersPodsAreNotSelected(cluster: string, kcp: Uid, lib: Library, log: seq<Event>, name: string,
                                        other: string, kcp': Uid, log': seq<Event>, u: Uid)
    requires cluster != other && name in Run(ShippedConfig(cluster, kcp, lib), InitialState(), log).services
    requires var t := Run(ShippedConfig(other, kcp', lib), InitialState(), log'); u in t.pods && t.pods[u].owner.Some?
    ensures !Selects(Run(ShippedConfig(cluster, kcp, lib), InitialState(), log).services[name].selector,
                     Run(ShippedConfig(other, kcp', lib), InitialState(), log').pods[u].labels)
  {
    hide Run, WellFormed, ControlPlanePodTemplates, ShippedTreeNames, Safe;
    ShippedConfigIsWellFormed(cluster, kcp, lib);
    ServiceIsTheEtcdService(ShippedConfig(cluster, kcp, lib), log, name);
    OwnedPodsAreShippedPods(other, kcp', lib, log', u);
    var selector := EtcdService(cluster, kcp).selector;
    assert CLUSTER_LABEL in selector && selector[CLUSTER_LABEL] == cluster;
  }

  // --- What the scheduler's label leads to ----------------------------------------------------------------

  /** No machine ever has a pod labelled "scheduler", in any run. */
  lemma NoPodCountsAsScheduler(cluster: string, kcp: Uid, lib: Library, log: seq<Event>, m: Uid)
    ensures SCHEDULER !in OwnedRoles(Run(ShippedConfig(cluster, kcp, lib), InitialState(), log).pods, m)
  {
    hide Run;
    SchedulerEntry(cluster);
    UnlabelledIsNeverOwned(ShippedConfig(cluster, kcp, lib), log, m, SCHEDULER);
  }

  function SchedulerPods(pods: map<Uid, Pod>, m: Uid): set<Uid> {
    set u | u in pods && pods[u].owner == Some(m) && pods[u].image == "openbce/kube-scheduler:v1.24.1"
  }

  lemma SchedulerPodsByImage(pods: map<Uid, Pod>, m: Uid)
    ensures SchedulerPods(pods, m) == OwnedWithImage(pods, m, "openbce/kube-scheduler:v1.24.1")
  {
  }

  /** In every run, whatever interleaves, a machine has exactly as many pods from the scheduler's template as its
      reconciles have got past that role; so n complete pod set-ups have made at least n of them. */
  lemma SchedulerPodsGrowForever(cluster: string, kcp: Uid, lib: Library, log: seq<Event>, m: Uid)
    ensures var s := Run(ShippedConfig(cluster, kcp, lib), InitialState(), log);
            |SchedulerPods(s.pods, m)| == |PastRole(s, m, SCHEDULER)| >= |CompleteSetUps(s, m)|
  {
    hide Run, WellFormed, ControlPlanePodTemplates, SchedulerPods, OwnedWithImage, Unlabelled, PastRole,
         CompleteSetUps;
    var cfg := ShippedConfig(cluster, kcp, lib);
    ShippedConfigIsWellFormed(cluster, kcp, lib);
    SchedulerEntry(cluster);
    OnePodFromEveryReconcile(cfg, log, m, SCHEDULER);
    CompleteIsPast(Run(cfg, InitialState(), log), m, SCHEDULER);
    SchedulerPodsByImage(Run(cfg, InitialState(), log).pods, m);
  }

  /** In every run, whatever interleaves, no reconcile that starts after `log` stores its machine as ready unless a
      pod has come to run since. */
  lemma ShippedMachineIsNotReadyAtRest(cluster: string, kcp: Uid, lib: Library, log: seq<Event>, more: seq<Event>,
                                       j: nat, m: Uid)
    ensures !ReadyWithoutChange(ShippedConfig(cluster, kcp, lib), log, more, j, m)
  {
    hide WellFormed, Run, ReadyWrite, AtRest, Unlabelled;
    var cfg := ShippedConfig(cluster, kcp, lib);
    ShippedConfigIsWellFormed(cluster, kcp, lib);
    SchedulerEntry(cluster);
    if ReadyWithoutChange(cfg, log, more, j, m) {
      NeverReadyAtRest(cfg, log, more, SCHEDULER, j, m);
    }
  }

  lemma SchedulerEntry(cluster: string)
    ensures Unlabelled(ControlPlanePodTemplates(cluster), SCHEDULER)
    ensures ControlPlanePodTemplates(cluster)[SCHEDULER].image == "openbce/kube-scheduler:v1.24.1"
    ensures OwnImage(ControlPlanePodTemplates(cluster), SCHEDULER)
  {
    OnlyTheSchedulerIsMislabelled(cluster, SCHEDULER);
    var image := SchedulerPodTemplate(cluster).image;
    assert image[13] != ApiServerPodTemplate(cluster).image[13];
    assert image[13] != ControllerManagerPodTemplate(cluster).image[13];
    assert image[8] != EtcdPodTemplate(cluster).image[8];
  }

  /** When pods start to run while a reconcile is under way: from any reachable state with machine `m`, one more
      reconcile of it can lead to `m` stored as ready although it never had all its pods. */
  lemma ShippedReadinessIsUnsound(cluster: string, kcp: Uid, lib: Library, log: seq<Event>, m: Uid, p: Pid)
    returns (more: seq<Event>)
    requires var s := Run(ShippedConfig(cluster, kcp, lib), InitialState(), log); m in s.machines && p !in s.procs
    ensures var cfg := ShippedConfig(cluster, kcp, lib);
            StoredReady(cfg, log + more, m) && !EverFullyRunning(cfg, log + more, m)
  {
    hide Run, WellFormed, StoredReady, EverFullyRunning, Unlabelled;
    ShippedConfigIsWellFormed(cluster, kcp, lib);
    SchedulerEntry(cluster);
    more := UnlabelledGoesWrong(ShippedConfig(cluster, kcp, lib), log, m, p, SCHEDULER);
  }
}
