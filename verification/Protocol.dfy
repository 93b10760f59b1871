/** Go's int32, as far as the controllers use it. */
module Int32 {
  const MAX := 0x7fff_ffff
  const MIN := -0x8000_0000

  type int32 = x: int | MIN <= x <= MAX

  // The narrowing conversion int32(x): the low 32 bits, read as a signed number.
  function Narrow(x: int): (r: int32)
    ensures MIN <= x <= MAX ==> r == x
  {
    (x - MIN) % 0x1_0000_0000 + MIN
  }

  /** Narrowing drops a multiple of 2^32 and nothing else. */
  lemma NarrowDropsHighBits(x: int) returns (k: int)
    ensures Narrow(x) == x - k * 0x1_0000_0000
  {
    k := (x - MIN) / 0x1_0000_0000;
  }
}

/** The API server of one cluster's namespace and every reconcile in flight on it.

    A reconcile is the list of tasks it has left; an event is one API call of one reconcile, or a step of
    the world around them. A reconcile that crashed or returned early is one that takes no further step. */
module Protocol {
  import opened Int32

  type Pid = nat  // one invocation of a Reconcile method
  type Key = nat  // a private key, identified by the order of its generation
  type Uid = nat

  datatype Option<+T> = None | Some(value: T) {
    function GetOr(default: T): T {
      if Some? then value else default
    }
  }

  // --- The cluster a control plane is for ------------------------------------------------------------------

  // What reconciles read of a cluster.
  datatype ClusterSpec = ClusterSpec(serviceBlocks: seq<string>, serviceDomain: string, host: string, port: int)

  predicate HasEndpoint(c: ClusterSpec) {
    c.host != "" && c.port != 0
  }

  // Library functions that may fail: the first address of a subnet, and the reading of an address.
  datatype Library = Library(virtualIP: string -> Option<string>, parseIP: string -> Option<string>)

  datatype AltNames = AltNames(ips: seq<string>, dnsNames: seq<string>)

  function NoNames(): AltNames {
    AltNames([], [])
  }

  const DEFAULT_SUBNET := "192.168.0.0/24"

  function SubnetOf(c: ClusterSpec): string {
    if c.serviceBlocks != [] then c.serviceBlocks[0] else DEFAULT_SUBNET
  }

  // The alternative names of the API server of a cluster, if its service subnet has a virtual IP.
  function AltNamesOf(lib: Library, c: ClusterSpec): Option<AltNames> {
    match lib.virtualIP(SubnetOf(c))
    case None => None
    case Some(vip) =>
      var domain := if c.serviceDomain != "" then ["kubernetes.default.svc." + c.serviceDomain] else [];
      var ip := if HasEndpoint(c) then lib.parseIP(c.host) else None;
      Some(AltNames(
        [vip] + if ip.Some? then [ip.value] else [],
        ["kubernetes", "kubernetes.default", "kubernetes.default.svc"] + domain +
        if HasEndpoint(c) && ip.None? then [c.host] else []))
  }

  // --- Objects of the store -------------------------------------------------------------------------------

  // `signer` is the key that signed the certificate, a CA signs itself; `names` are its alternative names.
  datatype Secret = Secret(key: Key, signer: Key, names: AltNames)

  // `pods` are the references kept in the machine's status.
  datatype Machine = Machine(controller: Uid, ready: bool, pods: seq<Uid>)

  datatype MachineItem = MachineItem(uid: Uid, machine: Machine)

  datatype Phase = Pending | Running | Stopped

  type Labels = map<string, string>

  datatype Pod = Pod(owner: Option<Uid>, labels: Labels, image: string, mounts: seq<string>, phase: Phase)

  datatype PodTemplate = PodTemplate(labels: Labels, image: string, mounts: seq<string>)

  datatype Service = Service(owner: Uid, labels: Labels, selector: Labels)

  datatype ControlPlaneStatus = ControlPlaneStatus(
    readyReplicas: int32, unavailableReplicas: int32, initialized: bool, ready: bool, external: bool)

  const CLUSTER_LABEL := "cluster.x-k8s.io/cluster-name"
  const ROLE_LABEL := "kink.openbce.io/role"
  const ETCD := "etcd"

  function EtcdServiceName(cluster: string): string {
    cluster + "-etcd-svc"
  }

  // The role a label set names, if it names one.
  function RoleOf(labels: Labels): Option<string> {
    if ROLE_LABEL in labels then Some(labels[ROLE_LABEL]) else None
  }

  function EtcdService(cluster: string, owner: Uid): Service {
    var labels := map[CLUSTER_LABEL := cluster, ROLE_LABEL := ETCD];
    Service(owner, labels, labels)
  }

  function FromTemplate(owner: Uid, t: PodTemplate): Pod {
    Pod(Some(owner), t.labels, t.image, t.mounts, Pending)
  }

  // --- What stays fixed -----------------------------------------------------------------------------------

  // `tree` gives each CA the names of its leaves; `table` gives each role the pod made for it.
  datatype Config = Config(
    cluster: string, kcp: Uid, tree: map<string, set<string>>, table: map<string, PodTemplate>, lib: Library)

  const API_SERVER_CERT := "apiserver"
  const SA := "sa"
  const KUBECONFIG := "kubeconfig"

  function LeafNames(tree: map<string, set<string>>): set<string> {
    set c, l | c in tree && l in tree[c] :: l
  }

  function TreeNames(tree: map<string, set<string>>): set<string> {
    tree.Keys + LeafNames(tree)
  }

  function AllNames(tree: map<string, set<string>>): set<string> {
    TreeNames(tree) + {SA, KUBECONFIG}
  }

  // A two-level tree: no name is both a CA and a leaf, no leaf has two CAs, the two extra names are apart.
  predicate TwoLevel(tree: map<string, set<string>>) {
    && SA !in TreeNames(tree) && KUBECONFIG !in TreeNames(tree)
    && tree.Keys !! LeafNames(tree)
    && forall c, d | c in tree && d in tree && c != d :: tree[c] !! tree[d]
  }

  // One step of the outer loop over a certificate tree: a CA and its leaves in list order.
  datatype Block = Block(ca: string, leaves: seq<string>)

  predicate IsOrderOf(tree: map<string, set<string>>, order: seq<Block>) {
    && (forall b | b in order :: b.ca in tree && (set l | l in b.leaves) == tree[b.ca])
    && (forall c | c in tree :: exists b | b in order :: b.ca == c)
    && (forall i, j | 0 <= i < j < |order| :: order[i].ca != order[j].ca)
  }

  predicate IsRoleOrder(table: map<string, PodTemplate>, order: seq<string>) {
    && (set t | t in order) == table.Keys
    && forall i, j | 0 <= i < j < |order| :: order[i] != order[j]
  }

  // --- Reconciles -----------------------------------------------------------------------------------------

  datatype Task =
    | NewCA(ca: string)
    | PutCA(ca: string)
    | PutLeaf(leaf: string, ca: string)
    | PutSA
    | PutKubeconfig
    | ListMachines
    | AddMachine
    | DropMachine(victim: Uid)
    | IndexPanic
    | CountMachines
    | WriteControlPlane(status: ControlPlaneStatus)
    | ListPods
    | MakePod(role: string)
    | ListServices
    | MakeService
    | CheckPods
    | WriteMachine(ready: bool)

  datatype Actor =
    | ControlPlaneActor(replicas: int32, spec: ClusterSpec)
    | MachineActor(uid: Uid, order: seq<string>)

  // `done` holds what the reconcile has seen to exist: secret names, or the roles of a machine's pods.
  // `keys` holds the CA keys it generated. `missing` is set between a Get that found nothing and the Create.
  datatype Proc = Proc(actor: Actor, todo: seq<Task>, done: set<string>, keys: map<string, Key>, missing: bool)

  function LeafTasks(ca: string, leaves: seq<string>): seq<Task> {
    if leaves == [] then [] else [PutLeaf(leaves[0], ca)] + LeafTasks(ca, leaves[1..])
  }

  function TreeTasks(order: seq<Block>): seq<Task> {
    if order == [] then []
    else [NewCA(order[0].ca), PutCA(order[0].ca)] + LeafTasks(order[0].ca, order[0].leaves) + TreeTasks(order[1..])
  }

  function ControlPlaneTasks(order: seq<Block>): seq<Task> {
    TreeTasks(order) + [PutSA, PutKubeconfig, ListMachines, CountMachines]
  }

  function AddTasks(n: nat): seq<Task> {
    if n == 0 then [] else [AddMachine] + AddTasks(n - 1)
  }

  // Deleting from the end of the list; asking for more than it holds reaches index -1.
  function DropTasks(items: seq<MachineItem>, n: nat): seq<Task> {
    if n == 0 then []
    else if items == [] then [IndexPanic]
    else [DropMachine(items[|items| - 1].uid)] + DropTasks(items[..|items| - 1], n - 1)
  }

  function ScaleTasks(items: seq<MachineItem>, replicas: int32): seq<Task> {
    var listed := Narrow(|items|);
    if listed < replicas then AddTasks(replicas - listed) else DropTasks(items, listed - replicas)
  }

  function MakeTasks(order: seq<string>, found: set<string>): seq<Task> {
    if order == [] then []
    else (if order[0] in found then [] else [MakePod(order[0])]) + MakeTasks(order[1..], found)
  }

  function MachineTasks(): seq<Task> {
    [ListPods, ListServices, CheckPods]
  }

  function Controlled(items: seq<MachineItem>, kcp: Uid, ready: bool): nat {
    if items == [] then 0
    else (if items[0].machine.controller == kcp && items[0].machine.ready == ready then 1 else 0)
         + Controlled(items[1..], kcp, ready)
  }

  function StatusOf(items: seq<MachineItem>, kcp: Uid): ControlPlaneStatus {
    var ready := Narrow(Controlled(items, kcp, true));
    ControlPlaneStatus(ready, Narrow(Controlled(items, kcp, false)), ready > 0, ready > 0, true)
  }

  // --- The whole system -----------------------------------------------------------------------------------

  // The last five fields record the past and are read by no reconcile:
  // who created a secret, who generated a key for which name, what the cluster ever was while ready for a
  // control plane, the controller of every machine ever created, and the machines ever stored as ready.
  datatype Sys = Sys(
    open: Option<ClusterSpec>,
    secrets: map<string, Secret>,
    machines: map<Uid, Machine>,
    pods: map<Uid, Pod>,
    services: map<string, Service>,
    status: Option<ControlPlaneStatus>,
    procs: map<Pid, Proc>,
    nextKey: Key,
    nextUid: Uid,
    writtenBy: map<string, Pid>,
    issued: map<Key, Issue>,
    everOpen: set<ClusterSpec>,
    born: map<Uid, Uid>,
    everReady: set<Uid>)

  datatype Issue = Issue(pid: Pid, name: string)

  function InitialState(): Sys {
    Sys(None, map[], map[], map[], map[], None, map[], 0, 0, map[], map[], {}, map[], {})
  }

  datatype Event =
    // control-plane reconciles
    | StartControlPlane(p: Pid, blocks: seq<Block>, replicas: int32, spec: ClusterSpec)
    | CAGenerated(p: Pid)
    | SecretFound(p: Pid)
    | SecretMissing(p: Pid)
    | SecretCreated(p: Pid)
    | MachinesListed(p: Pid, items: seq<MachineItem>)
    | MachineAdded(p: Pid)
    | MachineDropped(p: Pid)
    | MachinesCounted(p: Pid, items: seq<MachineItem>)
    | ControlPlaneWritten(p: Pid)
    // machine reconciles
    | StartMachine(p: Pid, uid: Uid, order: seq<string>)
    | PodsListed(p: Pid)
    | PodMade(p: Pid)
    | ServicesListed(p: Pid)
    | ServiceMade(p: Pid)
    | PodsChecked(p: Pid)
    | MachineWritten(p: Pid, refs: seq<Uid>)
    // a call whose failure the reconcile ignores
    | CallFailed(p: Pid)
    // the world around them
    | PodPhase(pod: Uid, phase: Phase)
    | ClusterReady(spec: ClusterSpec)
    | ClusterUnready
    | ForeignMachine(controller: Uid)
    | ForeignPod(labels: Labels)
    | MachineVanished(uid: Uid)

  function By(e: Event): Option<Pid> {
    match e
    case PodPhase(_, _) => None
    case ClusterReady(_) => None
    case ClusterUnready => None
    case ForeignMachine(_) => None
    case ForeignPod(_) => None
    case MachineVanished(_) => None
    case _ => Some(e.p)
  }

  predicate At(s: Sys, p: Pid) {
    p in s.procs && s.procs[p].todo != []
  }

  function Current(s: Sys, p: Pid): Task
    requires At(s, p)
  {
    s.procs[p].todo[0]
  }

  predicate IsPut(t: Task) {
    t.PutCA? || t.PutLeaf? || t.PutSA? || t.PutKubeconfig?
  }

  function NameOf(t: Task): string
    requires IsPut(t)
  {
    match t
    case PutCA(c) => c
    case PutLeaf(l, _) => l
    case PutSA => SA
    case PutKubeconfig => KUBECONFIG
  }

  predicate HoldsKey(t: Task, keys: map<string, Key>) {
    (t.PutCA? || t.PutLeaf?) ==> t.ca in keys
  }

  // The alternative names a put task writes: the API server's certificate has those of the cluster that the
  // reconcile has read.
  function PutNames(lib: Library, t: Task, a: Actor): AltNames {
    if t.PutLeaf? && t.leaf == API_SERVER_CERT && a.ControlPlaneActor? then AltNamesOf(lib, a.spec).GetOr(NoNames())
    else NoNames()
  }

  // The secret a put task writes: a CA under the key generated in this reconcile, a leaf signed by it.
  function Content(t: Task, keys: map<string, Key>, drawn: Key, names: AltNames): Secret
    requires IsPut(t) && HoldsKey(t, keys)
  {
    match t
    case PutCA(c) => Secret(keys[c], keys[c], names)
    case PutLeaf(_, c) => Secret(drawn, keys[c], names)
    case _ => Secret(drawn, drawn, names)
  }

  predicate IsControlPlane(s: Sys, p: Pid) {
    p in s.procs && s.procs[p].actor.ControlPlaneActor?
  }

  predicate IsMachine(s: Sys, p: Pid) {
    p in s.procs && s.procs[p].actor.MachineActor?
  }

  predicate Owned(pod: Pod, m: Uid) {
    pod.owner == Some(m)
  }

  // The roles that label the pods a machine owns.
  function OwnedRoles(pods: map<Uid, Pod>, m: Uid): set<string> {
    set u | u in pods && Owned(pods[u], m) && ROLE_LABEL in pods[u].labels :: pods[u].labels[ROLE_LABEL]
  }

  predicate AllRunning(pods: map<Uid, Pod>, m: Uid) {
    forall u | u in pods && Owned(pods[u], m) :: pods[u].phase == Running
  }

  predicate OwnsEtcdService(services: map<string, Service>, m: Uid) {
    exists n | n in services :: services[n].owner == m && RoleOf(services[n].labels) == Some(ETCD)
  }

  // An item of a possibly stale machine list: the machine exists or existed, and if the item says ready then
  // it was stored as ready at some time.
  predicate Seen(s: Sys, item: MachineItem) {
    && item.uid in s.born
    && item.machine.controller == s.born[item.uid]
    && (item.machine.ready ==> item.uid in s.everReady)
  }

  predicate Enabled(cfg: Config, s: Sys, e: Event) {
    match e
    case StartControlPlane(p, blocks, _, spec) => p !in s.procs && spec in s.everOpen && IsOrderOf(cfg.tree, blocks)
    case CAGenerated(p) => At(s, p) && Current(s, p).NewCA?
    case SecretFound(p) =>
      At(s, p) && IsPut(Current(s, p)) && !s.procs[p].missing && NameOf(Current(s, p)) in s.secrets
    case SecretMissing(p) => At(s, p) && IsPut(Current(s, p)) && !s.procs[p].missing  // the read may be stale
    case SecretCreated(p) =>
      && At(s, p) && IsPut(Current(s, p)) && s.procs[p].missing
      && NameOf(Current(s, p)) !in s.secrets && HoldsKey(Current(s, p), s.procs[p].keys)
    case MachinesListed(p, items) =>
      At(s, p) && Current(s, p).ListMachines? && IsControlPlane(s, p) && forall it | it in items :: Seen(s, it)
    case MachineAdded(p) => At(s, p) && Current(s, p).AddMachine?
    case MachineDropped(p) => At(s, p) && Current(s, p).DropMachine? && Current(s, p).victim in s.machines
    case MachinesCounted(p, items) =>
      At(s, p) && Current(s, p).CountMachines? && forall it | it in items :: Seen(s, it)
    case ControlPlaneWritten(p) => At(s, p) && Current(s, p).WriteControlPlane?
    case StartMachine(p, m, order) => p !in s.procs && m in s.born && IsRoleOrder(cfg.table, order)
    case PodsListed(p) => At(s, p) && Current(s, p).ListPods? && IsMachine(s, p)
    case PodMade(p) => At(s, p) && Current(s, p).MakePod? && IsMachine(s, p) && Current(s, p).role in cfg.table
    case ServicesListed(p) => At(s, p) && Current(s, p).ListServices? && IsMachine(s, p)
    case ServiceMade(p) =>
      && At(s, p) && Current(s, p).MakeService? && IsMachine(s, p)
      && EtcdServiceName(cfg.cluster) !in s.services
    case PodsChecked(p) => At(s, p) && Current(s, p).CheckPods? && IsMachine(s, p)
    case MachineWritten(p, _) =>
      && At(s, p) && Current(s, p).WriteMachine? && IsMachine(s, p) && s.procs[p].actor.uid in s.machines
    case CallFailed(p) =>
      At(s, p) && (Current(s, p).AddMachine? || Current(s, p).DropMachine? || Current(s, p).MakeService?)
    case PodPhase(u, _) => u in s.pods
    case ClusterReady(spec) => HasEndpoint(spec)
    case ClusterUnready => true
    case ForeignMachine(c) => c != cfg.kcp
    case ForeignPod(_) => true
    case MachineVanished(m) => m in s.machines
  }

  // What an event puts in front of the tasks its reconcile has left.
  function Unfolded(cfg: Config, s: Sys, e: Event): seq<Task>
    requires Enabled(cfg, s, e) && By(e).Some? && e.p in s.procs
  {
    var a := s.procs[e.p].actor;
    match e
    case MachinesListed(_, items) => ScaleTasks(items, a.replicas)
    case MachinesCounted(_, items) => [WriteControlPlane(StatusOf(items, cfg.kcp))]
    case PodsListed(_) => MakeTasks(a.order, OwnedRoles(s.pods, a.uid))
    case ServicesListed(_) => if OwnsEtcdService(s.services, a.uid) then [] else [MakeService]
    case PodsChecked(_) => [WriteMachine(AllRunning(s.pods, a.uid))]
    case _ => []
  }

  // What an event teaches its reconcile to exist.
  function Taught(cfg: Config, s: Sys, e: Event): set<string>
    requires Enabled(cfg, s, e) && By(e).Some? && e.p in s.procs
  {
    match e
    case SecretFound(p) => {NameOf(Current(s, p))}
    case SecretCreated(p) => {NameOf(Current(s, p))}
    case PodsListed(p) => OwnedRoles(s.pods, s.procs[p].actor.uid)
    case PodMade(p) => {Current(s, p).role}
    case _ => {}
  }

  // A reconcile past its current task.
  function Advance(pr: Proc, more: seq<Task>, known: set<string>, keys: map<string, Key>): Proc
    requires pr.todo != []
  {
    Proc(pr.actor, more + pr.todo[1..], pr.done + known, keys, false)
  }

  function ProcAfter(cfg: Config, s: Sys, e: Event): Proc
    requires Enabled(cfg, s, e) && By(e).Some?
  {
    if e.StartControlPlane? then
      Proc(ControlPlaneActor(e.replicas, e.spec), ControlPlaneTasks(e.blocks), {}, map[], false)
    else if e.StartMachine? then
      Proc(MachineActor(e.uid, e.order), MachineTasks(), {}, map[], false)
    else if e.SecretMissing? then
      s.procs[e.p].(missing := true)
    else
      var pr := s.procs[e.p];
      var keys := if e.CAGenerated? then pr.keys[pr.todo[0].ca := s.nextKey] else pr.keys;
      Advance(pr, Unfolded(cfg, s, e), Taught(cfg, s, e), keys)
  }

  // A CA secret stores the key its reconcile generated before; every other secret draws a fresh one.
  predicate DrawsKey(s: Sys, e: Event) {
    e.CAGenerated? || (e.SecretCreated? && At(s, e.p) && !Current(s, e.p).PutCA?)
  }

  function KeyName(s: Sys, e: Event): string
    requires DrawsKey(s, e) && By(e).Some? && At(s, e.p)
    requires e.CAGenerated? ==> Current(s, e.p).NewCA?
    requires e.SecretCreated? ==> IsPut(Current(s, e.p))
  {
    if e.CAGenerated? then Current(s, e.p).ca else NameOf(Current(s, e.p))
  }

  function SecretsAfter(cfg: Config, s: Sys, e: Event): map<string, Secret>
    requires Enabled(cfg, s, e)
  {
    if e.SecretCreated? then
      var t, pr := Current(s, e.p), s.procs[e.p];
      s.secrets[NameOf(t) := Content(t, pr.keys, s.nextKey, PutNames(cfg.lib, t, pr.actor))]
    else s.secrets
  }

  function MachinesAfter(cfg: Config, s: Sys, e: Event): map<Uid, Machine>
    requires Enabled(cfg, s, e)
  {
    match e
    case MachineAdded(_) => s.machines[s.nextUid := Machine(cfg.kcp, false, [])]
    case ForeignMachine(c) => s.machines[s.nextUid := Machine(c, false, [])]
    case MachineDropped(p) => s.machines - {Current(s, p).victim}
    case MachineVanished(m) => s.machines - {m}
    case MachineWritten(p, refs) =>
      var m := s.procs[p].actor.uid;
      s.machines[m := s.machines[m].(ready := Current(s, p).ready, pods := refs)]
    case _ => s.machines
  }

  function PodsAfter(cfg: Config, s: Sys, e: Event): map<Uid, Pod>
    requires Enabled(cfg, s, e)
  {
    match e
    case PodMade(p) => s.pods[s.nextUid := FromTemplate(s.procs[p].actor.uid, cfg.table[Current(s, p).role])]
    case ForeignPod(labels) => s.pods[s.nextUid := Pod(None, labels, "", [], Pending)]
    case PodPhase(u, phase) => s.pods[u := s.pods[u].(phase := phase)]
    case _ => s.pods
  }

  function ServicesAfter(cfg: Config, s: Sys, e: Event): map<string, Service>
    requires Enabled(cfg, s, e)
  {
    if e.ServiceMade? then
      s.services[EtcdServiceName(cfg.cluster) := EtcdService(cfg.cluster, s.procs[e.p].actor.uid)]
    else s.services
  }

  function BornAfter(cfg: Config, s: Sys, e: Event): map<Uid, Uid> {
    if e.MachineAdded? then s.born[s.nextUid := cfg.kcp]
    else if e.ForeignMachine? then s.born[s.nextUid := e.controller]
    else s.born
  }

  predicate DrawsUid(e: Event) {
    e.MachineAdded? || e.ForeignMachine? || e.PodMade? || e.ForeignPod?
  }

  function Apply(cfg: Config, s: Sys, e: Event): Sys
    requires Enabled(cfg, s, e)
  {
    Sys(
      if e.ClusterReady? then Some(e.spec) else if e.ClusterUnready? then None else s.open,
      SecretsAfter(cfg, s, e),
      MachinesAfter(cfg, s, e),
      PodsAfter(cfg, s, e),
      ServicesAfter(cfg, s, e),
      if e.ControlPlaneWritten? then Some(Current(s, e.p).status) else s.status,
      if By(e).Some? then s.procs[By(e).value := ProcAfter(cfg, s, e)] else s.procs,
      if DrawsKey(s, e) then s.nextKey + 1 else s.nextKey,
      if DrawsUid(e) then s.nextUid + 1 else s.nextUid,
      if e.SecretCreated? then s.writtenBy[NameOf(Current(s, e.p)) := e.p] else s.writtenBy,
      if DrawsKey(s, e) then s.issued[s.nextKey := Issue(e.p, KeyName(s, e))] else s.issued,
      if e.ClusterReady? then s.everOpen + {e.spec} else s.everOpen,
      BornAfter(cfg, s, e),
      if e.MachineWritten? && Current(s, e.p).ready
        then s.everReady + {s.procs[e.p].actor.uid} else s.everReady)
  }

  // An event that is not enabled leaves the system as it is, so every log describes a run.
  function Next(cfg: Config, s: Sys, e: Event): Sys {
    if Enabled(cfg, s, e) then Apply(cfg, s, e) else s
  }

  function Run(cfg: Config, s: Sys, log: seq<Event>): Sys {
    if log == [] then s else Next(cfg, Run(cfg, s, log[..|log| - 1]), log[|log| - 1])
  }

  lemma {:induction false} RunAppend(cfg: Config, s: Sys, a: seq<Event>, b: seq<Event>)
    ensures Run(cfg, s, a + b) == Run(cfg, Run(cfg, s, a), b)
  {
    if b == [] {
      assert a + b == a;
    } else {
      RunAppend(cfg, s, a, b[..|b| - 1]);
      assert (a + b)[..|a + b| - 1] == a + b[..|b| - 1];
    }
  }

  lemma RunNext(cfg: Config, s: Sys, log: seq<Event>, e: Event)
    ensures Run(cfg, s, log + [e]) == Next(cfg, Run(cfg, s, log), e)
  {
    assert (log + [e])[..|log|] == log;
  }

  lemma RunStep(cfg: Config, s: Sys, log: seq<Event>, j: nat)
    requires j < |log|
    ensures Run(cfg, s, log[..j + 1]) == Next(cfg, Run(cfg, s, log[..j]), log[j])
  {
    assert log[..j + 1][..j] == log[..j];
  }
}
