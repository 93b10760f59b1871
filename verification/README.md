# Verification model of kink

kink is a Kubernetes operator that runs the control plane of a cluster as pods of another cluster. This project models
its reconcile protocol and proves what every run of it keeps and what runs lead to: two controllers that read and write
one API server, with calls that fail, reads that are stale, reconciles that crash, Go maps that are iterated in any
order, and any interleaving of all of these.

## How the model is built

- `Protocol.dfy` is the whole system as a state machine. A reconcile is the list of tasks it has left; an event is one
  API call of one reconcile or a step of the world around it (a cluster becoming ready, a pod changing phase, a machine
  vanishing, somebody else's machine or pod appearing). An event that is not enabled changes nothing, so *every*
  sequence of events is a run, and a theorem over all logs is a theorem over all interleavings, failures and crashes. A
  failed call that aborts a reconcile is one after which it takes no further step.
- `Typing.dfy` and `Safety.dfy` hold the inductive invariants. A task list is sound when each task finds what it relies
  on; soundness is local to one reconcile and is what carries the order of things across interleavings.
- `ApiServer.dfy` is the client: one method per call, each proved to be one event. Before every call any number of other
  events may happen. Three flags of a server, fixed for its lifetime, weaken this adversary where a theorem needs it:
  `quiet` (nothing else happens during the reconcile), `current` (what is read is what is stored), `reliable` (calls
  fail only for what is stored). All contracts that do not mention a flag hold without it.
- `Certificates.dfy`, `CertificatesManager.dfy`, `ControlPlane.dfy` and `KinkMachine.dfy` are the operator's code in its
  own form: classes that update their fields, loops over lists and maps with early returns, the int32 counters, the
  loop variable whose address Go 1.18 shares between rounds. Each method that calls the server consumes its reconcile's
  task list, so whatever it does is a run of the protocol.
- `CertificateHistory.dfy`, `CutRun.dfy`, `ServingCertificate.dfy`, `Ordering.dfy`, `Scaling.dfy`, `ScalingRuns.dfy`,
  `PodPasses.dfy`, `PodRuns.dfy`, `PodGrowth.dfy`, `PodBounds.dfy`, `Readiness.dfy`, `ReadinessExact.dfy`,
  `ReadyAtRest.dfy` and `Templates.dfy` are the theorems; `OwnMachine.dfy`, `LoneReconcile.dfy` and `TableLabels.dfy`
  build the runs that show where a property fails.

Keys are numbers in the order of their generation, and a certificate records the number of the key that signed it. Where
the code departs from what it is for, the model follows the code, and the theorem says exactly when the purpose is met:

- A leaf matches its CA if and only if one reconcile wrote both; a reconcile cut between them leaves a pair that no
  later run repairs (`CutRun.CutRunHappens` gives the run).
- Whatever a machine reconcile stores as readiness is what its own check of the pods found. That check found every role
  covered and every pod running, in every run in which it stored ready, if and only if every pod template is labelled
  with its own role. The shipped table is not: the scheduler's pod is labelled `apiserver`
  (controllers/infrastructure/templates/scheduler.go:49). From every state with a
  machine a run leads to that machine stored as ready without ever having had a pod that counts as its scheduler.
- The pods of a machine whose reconciles do not overlap stay within the number of roles if and only if every template
  is labelled with its own role; otherwise they have no bound. With the shipped table every pod set-up makes one more
  scheduler pod.
- No reconcile stores its machine as ready without a pod having come to run since it started, if and only if some role
  labels no template, as `scheduler` in the shipped table.
- A negative replica count, with at most 2^31-1 machines listed, always makes the scale-down loop reach index -1.
- The pod references collected by pod set-up all point to the last pod listed, and service set-up clears them, so what
  is stored in a machine's status is always empty.

## Model

| member | source | states |
|---|---|---|
| Names.SecretNameInjective | controllers/controlplane/secrets/cert.go:46 | within one cluster two suffixes give the same secret name only if they are the same |
| Names.ClashIff | controllers/controlplane/secrets/cert.go:258-267 | two clusters of a namespace share a secret name if and only if one is the other plus `-front-proxy`, and then only its `ca` meets the other's `front-proxy-ca` |
| Names.GetSecretVolumes | controllers/infrastructure/templates/util.go:53-79 | one volume and one mount per listed certificate, in list order, under the secret's name |
| Certificates.GetAPIServerAltNames | controllers/controlplane/secrets/cert.go:307-346 | no names without a virtual IP; otherwise the exact lists, with a valid endpoint's host in exactly one of the two |
| Certificates.MutationsAppendCopies | controllers/controlplane/secrets/cert.go:296-303 | n mutations append exactly n copies of the computed names, nothing if they cannot be computed |
| Certificates.MutateTimesAdd | controllers/controlplane/secrets/cert.go:62-69 | mutating a times and then b times is mutating a + b times: a configuration remembers every earlier call |
| Certificates.KinkCert.GetConfig | controllers/controlplane/secrets/cert.go:62-69 | every call runs every mutator once more on the configuration the last call left |
| Certificates.GetCerts | controllers/controlplane/secrets/cert.go:258-393 | five new definitions with the shipped names, CAs and mutators |
| Certificates.AsMap | controllers/controlplane/secrets/cert.go:246-253 | the keys are the names that occur, each with its last definition |
| Certificates.CertTreeOf | controllers/controlplane/secrets/cert.go:225-243 | fails if and only if some definition names an unknown CA; otherwise the nodes are those of `NodesAreRootsAndCAs`, each with exactly the definitions that name it |
| Certificates.NodesAreRootsAndCAs | controllers/controlplane/secrets/cert.go:228-240 | a definition is a node if and only if it is a root or some definition names it as its CA, in every visit order |
| Certificates.EachLeafOnce | controllers/controlplane/secrets/cert.go:228-240 | a definition with a CA occurs exactly once, below its own CA, wherever the visit meets that CA; a root occurs nowhere |
| Certificates.VisitOrderIsIrrelevant | controllers/controlplane/secrets/cert.go:228-240 | two visits in different orders agree on the nodes and on each node's multiset of leaves |
| Certificates.LeavesAreTheNonRoots | controllers/controlplane/secrets/cert.go:228-240 | the leaves of all nodes together are as many as the definitions that have a CA |
| CertificatesManager.ShippedBlocksAreAnOrder | controllers/controlplane/secrets/cert.go:195-219 | whatever the two map orders, the rounds over the shipped tree visit each CA once with all its leaves |
| CertificatesManager.PodsMountWhatIsWritten | controllers/infrastructure/templates/util.go:37-59 | the names the templates mount are exactly those written before the kubeconfig |
| CertificatesManager.Manager.LookupOrCreateSecret | controllers/controlplane/secrets/cert.go:71-119 | get, else create: on success the secret is stored, whoever stored it; without failures it succeeds, stored before or not |
| CertificatesManager.Manager.CreateFromCA | controllers/controlplane/secrets/cert.go:173-189 | configures the leaf once more, whatever fails after that, then get-else-create; any error ends it; on success the leaf is stored under a private key that no other secret has |
| CertificatesManager.Manager.CreateLeaves | controllers/controlplane/secrets/cert.go:212-216 | the leaves of a CA in list order up to the first error; configured once more are exactly those that were reached |
| CertificatesManager.Manager.CreateBlock | controllers/controlplane/secrets/cert.go:197-216 | a new key for the CA, its secret, then its leaves, up to the first error; configured once more are exactly those that were reached |
| CertificatesManager.Manager.CreateTree | controllers/controlplane/secrets/cert.go:195-219 | all rounds up to the first error, as a run of the protocol; every definition is configured once for each time the walk met it, on failure too |
| CertificatesManager.EachConfiguredOnce | controllers/controlplane/secrets/cert.go:195-219 | on a grouped tree the walk meets every definition exactly once |
| CertificatesManager.GroupShipped | controllers/controlplane/secrets/mgr.go:63 | the shipped definitions group into the shipped tree without error, in every map order |
| CertificatesManager.APIServerMetOnce | controllers/controlplane/secrets/cert.go:284-305 | the walk over the shipped tree meets the API server's definition exactly once |
| CertificatesManager.NamesAppearOnce | controllers/controlplane/secrets/cert.go:296-303 | configured up to some point of such a walk, a definition with one mutator has each computed name once or none at all, and once at its end |
| CertificatesManager.ShippedTreeFits | controllers/controlplane/secrets/cert.go:212-216 | at the moment it is written, each shipped leaf is configured with the names its certificate is to have, in every map order |
| CertificatesManager.Manager.LookupOrGenerateCAs | controllers/controlplane/secrets/mgr.go:62-85 | on success the whole tree and `sa` are stored, whatever the map orders; the API server's definition has each computed alternative name exactly once, and if this reconcile wrote the certificate these are the names in it; on failure once or not at all; without failures it succeeds |
| CertificatesManager.Manager.LookupOrGenerateKubeconfig | controllers/controlplane/secrets/mgr.go:87-114 | unless the kubeconfig is found it reads the stored root CA before it creates, and that read may fail; what it read is the root CA that is stored at the end; on success all seven secrets are stored; without failures it succeeds |
| Typing.ControlPlaneProgramSound | controllers/controlplane/kinkcontrolplane_controller.go:94-110 | in every map order, each call of a control-plane reconcile comes after what it relies on |
| Typing.MachineProgramSound | controllers/infrastructure/kinkmachine_controller.go:72-80 | the readiness check of a machine reconcile comes after every role of the table was found or made |
| Typing.StepKeepsTyped | controllers/controlplane/kinkcontrolplane_controller.go:59-116 | every event keeps every reconcile's remaining calls sound for what it knows |
| Safety.EveryRunIsSafe | controllers/controlplane/kinkcontrolplane_controller.go:59-116 | every log, from the empty store, ends in a state that keeps all invariants of secrets, keys, machines, pods and the service |
| Safety.StepKeepsKeysHeld | controllers/controlplane/secrets/cert.go:203 | every CA key ever generated is still known to the reconcile that generated it, one for each CA |
| Safety.StepKeepsSecretsTraced | controllers/controlplane/secrets/cert.go:179-184 | the key of every stored secret, and the signer of every stored leaf, was generated by the reconcile that stored it, for that name and for its CA; a CA signs itself |
| Ordering.SecretsComeInOrder | controllers/controlplane/secrets/mgr.go:62-85 | in every run: leaf implies its CA, `sa` implies the tree, kubeconfig implies everything else |
| Ordering.EveryGateHasAnEndpoint | controllers/controlplane/kinkcontrolplane_controller.go:86-91 | in every run each control-plane reconcile past the gate is for a specification with a host and a port |
| Ordering.MachinesComeLast | controllers/controlplane/kinkcontrolplane_controller.go:81-108 | before a control-plane machine was made there was a state with all seven secrets stored and, no later, one in which the cluster was ready with a host and a port |
| Ordering.PodsMountStoredSecrets | controllers/infrastructure/templates/util.go:53-79 | a pod of such a machine mounts only secrets that are stored |
| Ordering.EtcdServiceIsUnique | controllers/infrastructure/kinkmachine_controller.go:147-187 | in every run there is at most the one etcd service, named after its cluster, labelled and selecting with cluster and role, owned by a machine, and it never changes once it exists |
| CertificateHistory.CoherentIffSameWriter | controllers/controlplane/secrets/cert.go:195-219 | in every run a stored leaf is signed by the stored CA if and only if one reconcile wrote both |
| CertificateHistory.EverySecretHasItsOwnKey | controllers/controlplane/secrets/cert.go:179-184 | in every run the private key of each stored secret was generated for that very name by the reconcile that stored it, no two stored secrets share one, and a CA signs itself |
| CertificateHistory.CreateOnce | controllers/controlplane/secrets/cert.go:80-91 | a stored secret keeps its content and its writer for ever |
| CertificateHistory.CutRunIsNeverRepaired | controllers/controlplane/secrets/cert.go:203-216 | a leaf missing when the writer of its CA stops is never signed by that CA, whatever runs later |
| CertificateHistory.CoherenceIsSettled | controllers/controlplane/secrets/cert.go:80-91 | once both are stored, no later run changes whether a leaf matches its CA |
| CertificateHistory.CompletedOnceFixedForever | controllers/controlplane/secrets/mgr.go:62-85 | after one reconcile got past its certificates exactly the seven names are stored and the secrets never change again |
| CertificateHistory.SoloOutcome | controllers/controlplane/secrets/cert.go:195-219 | a reconcile that completes alone makes a pair match if and only if it matched before or neither was stored |
| CertificateHistory.MapOrderIsIrrelevant | controllers/controlplane/secrets/cert.go:195-219 | two such reconciles from one state, in any map orders, store the same names and agree on every match |
| CertificateHistory.LeftAloneItCompletes | controllers/controlplane/secrets/cert.go:80-91 | from any reachable state the remaining certificate calls can all succeed, unless the next is the creation of a secret that has been stored since the reconcile looked |
| CertificateHistory.ElseItIsStuck | controllers/controlplane/secrets/cert.go:85-87 | and then no calls of that reconcile alone get it any further |
| CutRun.OneMoreCompletes | controllers/controlplane/secrets/mgr.go:62-85 | after any number of failed runs, one more can start and get past its certificates by its own calls |
| CutRun.CutRunHappens | controllers/controlplane/secrets/cert.go:203-216 | for every tree whose first CA has a leaf there is a run whose second reconcile completes and whose leaf never matches, for ever |
| ServingCertificate.ServingNamesAreTheGates | controllers/controlplane/secrets/cert.go:284-346 | in every run the stored certificate of the API server carries, each once, the names of a specification with a host and a port with which the cluster was ready before the certificate was stored: the virtual IP of its subnet, the service names, and the host in exactly one list |
| ServingCertificate.EveryRunTracesNames | controllers/controlplane/secrets/cert.go:173-189 | in every run these names are those of the cluster that the certificate's writer has read |
| ServingCertificate.OnlyTheServingCertificateHasNames | controllers/controlplane/secrets/cert.go:296-303 | in every run no other stored secret carries alternative names |
| Scaling.PassConverges | controllers/controlplane/kinkcontrolplane_controller.go:139-165 | on a current list the distance to the target shrinks by exactly the calls that succeeded and the target is never crossed |
| ScalingRuns.ScalingConverges | controllers/controlplane/kinkcontrolplane_controller.go:118-168 | over any stretch of a run from any reachable state, with anything else interleaved, if reconciles of the control plane do not overlap, lists are current and nobody else adds or removes machines: the number of machines moves towards the target by exactly the scaling calls that succeeded, never past it |
| ScalingRuns.ScalingLands | controllers/controlplane/kinkcontrolplane_controller.go:139-165 | when the last reconcile of such a stretch has no scaling call left and none has failed, the number of machines is the target |
| Scaling.SurvivorsAreTheFirst | controllers/controlplane/kinkcontrolplane_controller.go:160-165 | a scale-down without failures keeps exactly the first `replicas` listed machines, unchanged |
| Scaling.StaleListOvershoots | controllers/controlplane/kinkcontrolplane_controller.go:121-158 | a scale-up from a stale list overshoots by exactly what the list missed |
| Int32.NarrowDropsHighBits | controllers/controlplane/kinkcontrolplane_controller.go:139-160 | the conversion of a list length to int32 drops a multiple of 2^32 and nothing else |
| Scaling.NoCallAtTarget | controllers/controlplane/kinkcontrolplane_controller.go:139-165 | no call is made if and only if the listed number, as an int32, is the target |
| Scaling.StatusConserves | controllers/controlplane/kinkcontrolplane_controller.go:181-203 | ready plus unavailable are the machines this control plane controls, the gap to the number used for scaling are the others, ready and initialized hold if and only if a controlled machine is ready, and the control plane is marked as managed externally |
| Scaling.FaultFreeMeetsTarget | controllers/controlplane/kinkcontrolplane_controller.go:118-213 | with no foreign machine, a reconcile without failures stores ready plus unavailable equal to the target |
| ControlPlane.KinkControlPlaneReconciler.Grow | controllers/controlplane/kinkcontrolplane_controller.go:139-158 | the creating loop terminates, never makes more than is missing, and exactly that if no call fails |
| ControlPlane.KinkControlPlaneReconciler.Shrink | controllers/controlplane/kinkcontrolplane_controller.go:160-165 | the deleting loop deletes from the end of the list; it reaches index -1 if and only if the target is negative and at most 2^31-1 items are listed |
| ControlPlane.KinkControlPlaneReconciler.LookupOrCreateMachines | controllers/controlplane/kinkcontrolplane_controller.go:118-168 | one scaling pass over the listed machines; failed calls are ignored |
| ControlPlane.CountControlled | controllers/controlplane/kinkcontrolplane_controller.go:181-203 | the two int32 counters, wrapping around; the flags they set; the control plane marked as managed externally |
| ControlPlane.KinkControlPlaneReconciler.UpdateStatus | controllers/controlplane/kinkcontrolplane_controller.go:170-213 | what is stored are the counts over the listed machines, marked as managed externally, and ready and initialized exactly if a ready machine was counted |
| ControlPlane.KinkControlPlaneReconciler.LookupOrGenerateSecrets | controllers/controlplane/kinkcontrolplane_controller.go:94-103 | on success all secrets are stored before any machine call |
| ControlPlane.KinkControlPlaneReconciler.BringUp | controllers/controlplane/kinkcontrolplane_controller.go:93-115 | the steps behind the gate in their order, each only if the one before succeeded |
| ControlPlane.KinkControlPlaneReconciler.Reconcile | controllers/controlplane/kinkcontrolplane_controller.go:59-116 | passes the gate only for a cluster that it read as ready with a host and a port, and goes on with that very cluster; for any other it reads it waits, and does nothing; when done, all secrets are stored, one scaling pass was made and its status is stored; without failures and behind an open gate it completes unless the target is negative |
| PodPasses.PassShrinksMissing | controllers/infrastructure/kinkmachine_controller.go:124-142 | with coherent labels a pass, in any order and with a failure anywhere, removes exactly the roles it created from those missing; with none missing it creates nothing |
| PodPasses.PassKeepsOnePodPerRole | controllers/infrastructure/kinkmachine_controller.go:107-142 | a pass never makes a second pod for a role |
| PodPasses.CompletePassCoversIff | controllers/infrastructure/kinkmachine_controller.go:107-142 | a first complete pass leaves no role missing if and only if every role labels some template |
| PodRuns.NeverTwoPodsForARole | controllers/infrastructure/kinkmachine_controller.go:93-145 | in every interleaved run in which reconciles of one machine do not overlap, the machine never has two pods of one role |
| PodRuns.MissingNeverGrows | controllers/infrastructure/kinkmachine_controller.go:93-145 | in every run, the missing roles of a machine only ever get fewer |
| PodRuns.PodsAndMissingRoles | controllers/infrastructure/kinkmachine_controller.go:93-145 | in every interleaved run in which reconciles of one machine do not overlap, its pods and its missing roles together are exactly as many as the table has roles |
| PodRuns.PodsMadeAreRolesCovered | controllers/infrastructure/kinkmachine_controller.go:124-142 | from any reachable state, duplicate pods included, over any stretch of a run in which the machine's reconciles do not overlap, the pods made for it are exactly as many as the roles that stopped missing |
| PodRuns.UnlabelledIsNeverOwned | controllers/infrastructure/kinkmachine_controller.go:112-119 | in no run does a machine have a pod for a role that labels no template |
| PodRuns.OwnedPodsAreMadeFromTemplates | controllers/infrastructure/kinkmachine_controller.go:122-142 | every owned pod in every run has the labels, image and mounts of some template |
| PodGrowth.OnePodFromEveryReconcile | controllers/infrastructure/kinkmachine_controller.go:124-142 | in every run, overlapping reconciles of one machine included, a role that labels no template has at least one pod for every reconcile that got past it, and exactly one if no other template has its image |
| PodGrowth.UnlabelledRoleGrowsForever | controllers/infrastructure/kinkmachine_controller.go:124-142 | so n complete pod set-ups of a machine, in any run, have made at least n pods of that role's template |
| PodGrowth.CompleteSetUpLeavesNoneMissing | controllers/infrastructure/kinkmachine_controller.go:93-145 | with coherent labels, once a reconcile has completed its pod set-up, in any run, no role of the machine is ever missing again |
| PodBounds.PodsBoundedIff | controllers/infrastructure/kinkmachine_controller.go:93-145 | in runs in which a machine's reconciles do not overlap it has at most as many pods as the table has roles, if and only if every template is labelled with its own role; and if and only if there is any bound at all, even for machines of the control plane alone |
| PodBounds.MislabelledOverflows | controllers/infrastructure/kinkmachine_controller.go:124-142 | with any mislabelled template a machine of the control plane can get more pods than any number, by reconciles that run one after the other |
| PodBounds.BlockedGrows | controllers/infrastructure/kinkmachine_controller.go:124-142 | while a role is blocked, n further complete passes make at least n pods and leave it blocked |
| TableLabels.BlockedStays | controllers/infrastructure/kinkmachine_controller.go:124-142 | a role whose templates are all listed under roles that have a pod is never covered by a pass |
| TableLabels.SwappedBlocks | controllers/infrastructure/kinkmachine_controller.go:124-142 | when every role labels some template but one template bears another role's label, a pod from that template blocks a role |
| PodRuns.StretchIsElsewhere | controllers/infrastructure/kinkmachine_controller.go:107-110 | a stretch of a run in which the machine's reconciles make no pod leaves its pods alone but for their phases |
| KinkMachine.IndexPods | controllers/infrastructure/kinkmachine_controller.go:105-120 | the keys are the role labels of the listed pods whose owner is the machine; every value is the last pod of the whole list |
| KinkMachine.ListedRolesAreOwned | controllers/infrastructure/util.go:27-38 | the roles read off a list are the roles of the machine's stored pods |
| KinkMachine.IndexServices | controllers/infrastructure/kinkmachine_controller.go:159-172 | exactly the role labels of the listed services whose owner is the machine |
| KinkMachine.KinkMachineReconciler.CreateMissing | controllers/infrastructure/kinkmachine_controller.go:124-142 | creates missing roles in order up to the first failure; one reference for every role that had a pod |
| KinkMachine.KinkMachineReconciler.LookupOrSetupPods | controllers/infrastructure/kinkmachine_controller.go:93-145 | one pass that makes a pod from the template of each missing role; every reference it leaves points to the last pod listed |
| KinkMachine.KinkMachineReconciler.LookupOrSetupServices | controllers/infrastructure/kinkmachine_controller.go:147-187 | clears the references; ignores a failed creation, so a machine that does not own the service completes too |
| KinkMachine.KinkMachineReconciler.LookupOrSetupControlPlane | controllers/infrastructure/kinkmachine_controller.go:240-250 | pods first, then services; what is left for the status has no references |
| KinkMachine.ListedRunning | controllers/infrastructure/kinkmachine_controller.go:218-231 | stops at the first owned pod that does not run, and yet is true if and only if every stored pod whose owner is the machine runs |
| KinkMachine.KinkMachineReconciler.UpdateMachineStatus | controllers/infrastructure/kinkmachine_controller.go:208-238 | what it stores is true if and only if every pod whose owner is the machine runs, whatever other pods do |
| KinkMachine.KinkMachineReconciler.Reconcile | controllers/infrastructure/kinkmachine_controller.go:51-83 | every status it stores has no pod references; with nothing else happening it makes one pass, and stores a readiness only after a complete one: true if and only if the pods it leaves whose owner is the machine all run |
| Readiness.EveryRunIsSincere | controllers/infrastructure/kinkmachine_controller.go:105-142 | with coherent labels, in every run, every role a machine reconcile takes for covered has a pod |
| Readiness.VerdictWasReached | controllers/infrastructure/kinkmachine_controller.go:218-233 | every readiness or status a reconcile is about to store was computed by an earlier event of that same reconcile, from what it listed then |
| Readiness.WriteFollowsItsCheck | controllers/infrastructure/kinkmachine_controller.go:208-238 | a reconcile writes ready if and only if, at its own check, every pod whose owner is the machine ran; with coherent labels, if and only if moreover every role had a pod |
| Readiness.StoredStatusIsACount | controllers/controlplane/kinkcontrolplane_controller.go:181-211 | in every run the stored status is the count that its own writer made before; it is always marked as managed externally, and ready and initialized exactly if a ready machine was counted |
| Readiness.ReadyMachineWasRunning | controllers/infrastructure/kinkmachine_controller.go:208-238 | a machine stored as ready is so since some write, and the check of that write's own reconcile found every role with a pod and all pods running |
| Readiness.ReadyControlPlaneHadARunningMachine | controllers/controlplane/kinkcontrolplane_controller.go:181-203 | a control plane stored as ready is so since some write, whose own count was shown a machine of its own as ready; that had been written before, and that write's own check had found the machine fully running |
| LoneReconcile.BecomesReady | controllers/infrastructure/kinkmachine_controller.go:51-83 | from any state with a machine, one more reconcile of it can, after pods have come to run while it is under way, store the machine as ready, with the roles its templates' labels give |
| LoneReconcile.PassAlone | controllers/infrastructure/kinkmachine_controller.go:93-145 | one more reconcile can make a complete pass by its own calls |
| ReadinessExact.UnlabelledGoesWrong | controllers/infrastructure/kinkmachine_controller.go:124-142 | with a role that labels no template, from any reachable state with a machine, one more reconcile can lead to that machine stored as ready without ever having had all roles |
| ReadinessExact.SwappedGoesWrong | controllers/infrastructure/kinkmachine_controller.go:124-142 | with two templates under each other's labels, from any state in which the machine has no pod that counts for a role, a reconcile that stops after one creation and a complete one lead to a ready machine that never had all roles |
| ReadinessExact.MislabelledGoesWrong | controllers/infrastructure/kinkmachine_controller.go:189-198 | with any mislabelled template there is such a run for a machine the control plane made behind all its secrets |
| ReadinessExact.AReadyControlPlane | controllers/controlplane/kinkcontrolplane_controller.go:181-203 | every well-formed configuration has a run in which the control plane is stored as ready |
| OwnMachine.AnOwnMachine | controllers/controlplane/kinkcontrolplane_controller.go:93-108 | every well-formed configuration has a run in which the control plane makes a machine, with all seven secrets stored |
| OwnMachine.ControlPlaneBecomesReady | controllers/controlplane/kinkcontrolplane_controller.go:170-213 | from any state with an own machine stored as ready, one more reconcile can store the control plane as ready |
| ReadinessExact.ReadinessSoundIff | controllers/infrastructure/kinkmachine_controller.go:189-238 | in every run every write of ready follows an own check that found the machine fully running, if and only if every template is labelled with its own role; the same if only machines of the control plane are looked at |
| ReadyAtRest.NeverReadyAtRest | controllers/infrastructure/kinkmachine_controller.go:208-238 | with a role that labels no template, in every run, whatever interleaves, overlapping reconciles included, no reconcile stores its machine as ready unless a pod has come to run since it started |
| ReadyAtRest.ReadyAtRestIff | controllers/infrastructure/kinkmachine_controller.go:93-238 | that holds if and only if some role labels no template; the same if only machines of the control plane are looked at |
| Templates.ShippedConfigIsWellFormed | controllers/infrastructure/kinkmachine_controller.go:189-198 | the shipped tree and table meet what the theorems over well-formed configurations ask for |
| Templates.ShippedSecrets | controllers/controlplane/secrets/cert.go:258-393 | in every run only the seven shipped names are stored, and each certificate with a CA was signed by a key its own writer had generated for that CA |
| Templates.OwnedPodsAreShippedPods | controllers/infrastructure/templates/apiserver.go:32-100 | in every run a pod that a machine owns has one of the four images, carries the labels of its cluster and role, the scheduler those of the API server, and mounts exactly the six secrets written before the kubeconfig |
| Templates.OnlyTheSchedulerIsMislabelled | controllers/infrastructure/templates/scheduler.go:47-50 | an entry of the shipped table lacks its role's label if and only if it is the scheduler's, and no other makes up for it |
| Templates.NoPodCountsAsScheduler | controllers/infrastructure/templates/scheduler.go:47-50 | in no run does a machine have a pod labelled `scheduler` |
| Templates.SchedulerPodsGrowForever | controllers/infrastructure/kinkmachine_controller.go:124-142 | in every run, whatever interleaves, a machine has exactly one scheduler pod for each of its reconciles that got past that role, so at least n after n complete pod set-ups |
| Templates.ShippedMachineIsNotReadyAtRest | controllers/infrastructure/kinkmachine_controller.go:218-231 | with the shipped table, in every run, no reconcile stores its machine as ready unless a pod has come to run since it started |
| Templates.ShippedReadinessIsUnsound | controllers/infrastructure/templates/scheduler.go:47-50 | from every reachable state, for every stored machine, one more reconcile can lead, when pods come to run while it is under way, to it stored as ready although it never had all its pods |
| Templates.EtcdServiceSelectsTheEtcdPods | controllers/infrastructure/templates/etcd.go:38-92 | in every run the etcd service selects exactly the pods with the etcd image among those machines own |
| Templates.OtherClustersPodsAreNotSelected | controllers/infrastructure/templates/etcd.go:62-65 | the etcd service of one cluster, in any run, selects no pod that a machine of another cluster owns, in any run |
| ApiServer.Server.GetCluster | controllers/controlplane/kinkcontrolplane_controller.go:71-91 | a cluster seen ready with a host and a port was so, with that specification, at some moment; a current read shows what it is |
| ApiServer.Server.GenerateCA | controllers/controlplane/secrets/cert.go:202-206 | on success the reconcile holds a key for the CA and is past that step; nothing else of it changes |
| ApiServer.Server.GetSecret | controllers/controlplane/secrets/cert.go:81 | a secret found is stored; one not found may be stored all the same |
| ApiServer.Server.CreateSecret | controllers/controlplane/secrets/cert.go:85-87 | fails if the name is taken; otherwise this reconcile is the writer, the names it passes are stored, the key is one no other secret has, a CA is stored under the key generated for it and a leaf signed with that of its CA |
| ApiServer.Server.ReadSecret | controllers/controlplane/secrets/mgr.go:105 | what the library's read of the root CA finds is stored; it may fail, and does if the CA is missing |
| ApiServer.Server.ListMachines | controllers/controlplane/kinkcontrolplane_controller.go:121-129 | machines that exist or existed, each once; exactly the stored ones if lists are current |
| ApiServer.Server.CreateMachine | controllers/controlplane/kinkcontrolplane_controller.go:154-157 | on success exactly one machine of this control plane under a new uid, on failure none, besides what others did before the call |
| ApiServer.Server.DeleteMachine | controllers/controlplane/kinkcontrolplane_controller.go:161-164 | on success exactly the victim is gone, on failure nothing happened, besides what others did before the call |
| ApiServer.Server.CountMachines | controllers/controlplane/kinkcontrolplane_controller.go:171-179 | a second, separate list |
| ApiServer.Server.UpdateControlPlaneStatus | controllers/controlplane/kinkcontrolplane_controller.go:208-210 | on success the status is stored, on failure only others have acted |
| ApiServer.Server.GetMachine | controllers/infrastructure/kinkmachine_controller.go:54-60 | a machine found exists or existed |
| ApiServer.Server.ListPods | controllers/infrastructure/kinkmachine_controller.go:96-103 | exactly the stored pods, in any order |
| ApiServer.Server.CreatePod | controllers/infrastructure/kinkmachine_controller.go:138-141 | on success exactly one idle pod of this machine with the labels, image and mounts of the role's template under a new uid, on failure only others have acted |
| ApiServer.Server.ListServices | controllers/infrastructure/kinkmachine_controller.go:148-155 | exactly the stored services, in any order |
| ApiServer.Server.CreateService | controllers/infrastructure/kinkmachine_controller.go:181-183 | fails if the fixed name is taken, otherwise the service is this machine's; either way the reconcile goes on |
| ApiServer.Server.CheckPods | controllers/infrastructure/kinkmachine_controller.go:209-216 | a second, separate list |
| ApiServer.Server.UpdateMachineStatus | controllers/infrastructure/kinkmachine_controller.go:233-235 | on success readiness and references are stored, on failure only others have acted |

## Left out

- RSA and X.509 generation, PEM encoding, virtual IPs and IP parsing: a key is the number of its generation, signing a relation, the parsers of subnets and addresses are arbitrary functions that may fail.
- Rendering of the kubeconfig, done by a library outside the repository: that it reads the stored root CA is modelled, that it signs the client certificate with it is not; an error in it is a failed creation.
- Generated object names: an object is its uid, and a generated name that is taken is a failed creation.
- Owner references and API kinds: ownership is by the uid of the machine or control plane.
- Ports, commands, environment variables and volumes other than secrets of the templates; images only tell templates apart.
- One cluster in one namespace at a time: its secrets are keyed by their suffix, which `Names.SecretNameInjective` justifies; what two clusters can do to each other's names is `Names.ClashIff`.
- Only objects with the cluster's label are in the store, as every list filters by it; `Templates.OnlyTheSchedulerIsMislabelled` shows that the shipped templates carry it, the code's other objects do so by construction.
- Lists of pods and services are not stale, and pods, services and secrets are deleted by nobody; garbage collection of the pods of a deleted machine is not modelled.
- A key for a leaf is drawn when its secret is created rather than before the lookup; the source drops the key if the lookup finds the secret.
- Scheduling and retries by controller-runtime: no theorem says that a reconcile happens; histories are any sequences of them.
- `KinkClusterReconciler`, `ClusterToKinkCtrlPlane`, the older API version, manager set-up, flags and generated code: single branches or wiring.
- Nil network ranges in a cluster's specification: taken to be present, as the code dereferences them.
- ApiServer.Server.ListMachines: a stale list shows machines that exist or existed, and readiness that was stored at some time, not one earlier snapshot, so it admits more lists than a cache does.
- CertificatesManager.Manager.CreateTree: asks that a leaf has its certificate's names when the walk meets it, because a reconcile of the protocol has one set of names for a certificate; `CertificatesManager.ShippedTreeFits` shows it for the shipped tree in every order.
- ScalingRuns.ScalingConverges: for stale lists only `Scaling.StaleListOvershoots` is stated, and overlapping reconciles of one control plane, which the controller library does not run, are left out of it.
