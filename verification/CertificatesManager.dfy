/** The code that writes the certificates, proved to be a run of the protocol call by call. */
module CertificatesManager {
  import opened Collections
  import opened Names
  import opened Protocol
  import opened Typing
  import opened Safety
  import opened ApiServer
  import opened CertificateHistory
  import opened Certificates
  import opened ServingCertificate

  // --- The shipped definitions as a tree of names ---------------------------------------------------------

  function ShippedCA(): map<string, string> {
    map["ca" := "", "apiserver" := "ca", "kubelet-client" := "ca",
        "front-proxy-ca" := "", "front-proxy-client" := "front-proxy-ca"]
  }

  function ShippedTreeNames(): map<string, set<string>> {
    map["ca" := {"apiserver", "kubelet-client"}, "front-proxy-ca" := {"front-proxy-client"}]
  }

  // The leaves of a shipped CA in the order the definitions are visited.
  function LeafOrder(certOrder: seq<string>, ca: string): seq<string> {
    if certOrder == [] then []
    else
      var last := certOrder[|certOrder| - 1];
      LeafOrder(certOrder[..|certOrder| - 1], ca)
      + if last in ShippedCA() && ShippedCA()[last] == ca then [last] else []
  }

  function ShippedBlocks(certOrder: seq<string>, caOrder: seq<string>): seq<Block> {
    if caOrder == [] then []
    else [Block(caOrder[0], LeafOrder(certOrder, caOrder[0]))] + ShippedBlocks(certOrder, caOrder[1..])
  }

  predicate IsCertOrder(certOrder: seq<string>) {
    SetOf(certOrder) == ShippedCA().Keys && NoRepeats(certOrder)
  }

  predicate IsCAOrder(caOrder: seq<string>) {
    SetOf(caOrder) == ShippedTreeNames().Keys && NoRepeats(caOrder)
  }

  lemma {:induction false} LeafOrderContent(certOrder: seq<string>, ca: string)
    ensures SetOf(LeafOrder(certOrder, ca)) == set n | n in certOrder && n in ShippedCA() && ShippedCA()[n] == ca
  {
    if certOrder != [] {
      var rest, last := certOrder[..|certOrder| - 1], certOrder[|certOrder| - 1];
      LeafOrderContent(rest, ca);
      assert forall n :: n in certOrder <==> n in rest || n == last;
      assert forall n :: n in SetOf(LeafOrder(rest, ca)) <==> n in LeafOrder(rest, ca);
    }
  }

  lemma {:induction false} ShippedBlockAt(certOrder: seq<string>, caOrder: seq<string>)
    ensures |ShippedBlocks(certOrder, caOrder)| == |caOrder|
    ensures forall i | 0 <= i < |caOrder| ::
              ShippedBlocks(certOrder, caOrder)[i] == Block(caOrder[i], LeafOrder(certOrder, caOrder[i]))
  {
    if caOrder != [] {
      ShippedBlockAt(certOrder, caOrder[1..]);
    }
  }

  lemma ShippedLeaves(certOrder: seq<string>, ca: string)
    requires IsCertOrder(certOrder) && ca in ShippedTreeNames()
    ensures SetOf(LeafOrder(certOrder, ca)) == ShippedTreeNames()[ca]
  {
    LeafOrderContent(certOrder, ca);
    forall n ensures n in certOrder <==> n in ShippedCA() {
      assert n in SetOf(certOrder) <==> n in certOrder;
    }
    assert ShippedCA().Keys == {"ca", "apiserver", "kubelet-client", "front-proxy-ca", "front-proxy-client"};
  }

  /** Whatever the two map orders, the blocks visited are an order of the shipped tree. */
  lemma ShippedBlocksAreAnOrder(certOrder: seq<string>, caOrder: seq<string>)
    requires IsCertOrder(certOrder) && IsCAOrder(caOrder)
    ensures IsOrderOf(ShippedTreeNames(), ShippedBlocks(certOrder, caOrder))
  {
    var blocks := ShippedBlocks(certOrder, caOrder);
    ShippedBlockAt(certOrder, caOrder);
    forall b | b in blocks ensures b.ca in ShippedTreeNames() && SetOf(b.leaves) == ShippedTreeNames()[b.ca] {
      var i :| 0 <= i < |blocks| && blocks[i] == b;
      assert caOrder[i] in SetOf(caOrder);
      ShippedLeaves(certOrder, caOrder[i]);
    }
    forall c | c in ShippedTreeNames() ensures exists b | b in blocks :: b.ca == c {
      assert c in SetOf(caOrder);
      var i :| 0 <= i < |caOrder| && caOrder[i] == c;
      assert blocks[i] in blocks;
    }
  }

  lemma ShippedTreeIsTwoLevel()
    ensures TwoLevel(ShippedTreeNames())
    ensures AllNames(ShippedTreeNames()) == (set n | n in MountedCerts()) + {KUBECONFIG}
  {
    assert LeafNames(ShippedTreeNames()) == {"apiserver", "kubelet-client", "front-proxy-client"} by {
      assert "apiserver" in ShippedTreeNames()["ca"] && "kubelet-client" in ShippedTreeNames()["ca"];
      assert "front-proxy-client" in ShippedTreeNames()["front-proxy-ca"];
    }
    assert ShippedTreeNames().Keys == {"ca", "front-proxy-ca"};
    assert (set n | n in MountedCerts())
        == {"ca", "apiserver", "kubelet-client", "front-proxy-ca", "front-proxy-client", "sa"};
  }

  /** The secrets a pod mounts are exactly those the manager writes before the kubeconfig. */
  lemma PodsMountWhatIsWritten(cluster: string)
    ensures (set m | m in MountedSecrets(cluster))
         == set n | n in TreeNames(ShippedTreeNames()) + {SA} :: SecretName(cluster, n)
  {
    ShippedTreeIsTwoLevel();
    var mounts := MountedSecrets(cluster);
    assert TreeNames(ShippedTreeNames()) + {SA} == set n | n in MountedCerts();
    forall m | m in mounts ensures exists n | n in MountedCerts() :: SecretName(cluster, n) == m {
      var i :| 0 <= i < |mounts| && mounts[i] == m;
      assert MountedCerts()[i] in MountedCerts();
    }
    forall n | n in MountedCerts() ensures SecretName(cluster, n) in mounts {
      var i :| 0 <= i < |MountedCerts()| && MountedCerts()[i] == n;
      assert mounts[i] in mounts;
    }
  }

  // --- Trees of definitions -------------------------------------------------------------------------------

  function NamesOf(certs: seq<KinkCert>): seq<string> {
    seq(|certs|, i requires 0 <= i < |certs| => certs[i].name)
  }

  function BlocksOf(tree: CertTree, order: seq<KinkCert>): seq<Block>
    requires forall c | c in order :: c in tree
  {
    if order == [] then []
    else [Block(order[0].name, NamesOf(tree[order[0]]))] + BlocksOf(tree, order[1..])
  }

  // Every definition a walk over the tree meets, with repetitions.
  function Walk(tree: CertTree, order: seq<KinkCert>): seq<KinkCert>
    requires forall c | c in order :: c in tree
  {
    if order == [] then []
    else
      var last := order[|order| - 1];
      Walk(tree, order[..|order| - 1]) + ([last] + tree[last])
  }

  function Definitions(tree: CertTree): set<KinkCert> {
    tree.Keys + set ca, c | ca in tree && c in tree[ca] :: c
  }

  // What the definitions are configured as now.
  ghost function ConfigsOf(tree: CertTree): map<KinkCert, AltNames>
    reads Definitions(tree)
  {
    map c | c in Definitions(tree) :: c.config
  }

  // Each definition was configured once for every time it was met.
  ghost predicate Configured(all: set<KinkCert>, base: map<KinkCert, AltNames>, names: Option<AltNames>,
                             met: seq<KinkCert>)
    reads all
  {
    && all <= base.Keys
    && forall k | k in all :: k.config == MutateTimes(base[k], names, Count(met, k) * |k.mutators|)
  }

  method Configure(cert: KinkCert, lib: Library, c: ClusterSpec, ghost all: set<KinkCert>,
                   ghost base: map<KinkCert, AltNames>, ghost met: seq<KinkCert>)
    requires cert in all && Configured(all, base, AltNamesOf(lib, c), met)
    modifies cert`config
    ensures Configured(all, base, AltNamesOf(lib, c), met + [cert])
  {
    hide AltNamesOf;
    var _ := cert.GetConfig(lib, c);
    ghost var n := |cert.mutators|;
    MutateTimesAdd(base[cert], AltNamesOf(lib, c), Count(met, cert) * n, n);
    ghost var met' := met + [cert];
    assert met'[..|met'| - 1] == met;
    assert Count(met', cert) * n == Count(met, cert) * n + n;
  }

  // The alternative names a leaf is to have.
  function LeafNamesOf(name: string, names: Option<AltNames>): AltNames {
    if name == API_SERVER_CERT then names.GetOr(NoNames()) else NoNames()
  }

  // Configured once more, after being met in `met`, a leaf has the names it is to have.
  ghost predicate Fits(base: map<KinkCert, AltNames>, names: Option<AltNames>, met: seq<KinkCert>, leaf: KinkCert) {
    && leaf in base
    && MutateTimes(base[leaf], names, Count(met + [leaf], leaf) * |leaf.mutators|) == LeafNamesOf(leaf.name, names)
  }

  // So do all leaves of a node, met one after the other.
  ghost predicate AllFit(base: map<KinkCert, AltNames>, names: Option<AltNames>, met: seq<KinkCert>,
                         leaves: seq<KinkCert>)
  {
    forall i | 0 <= i < |leaves| :: Fits(base, names, met + leaves[..i], leaves[i])
  }

  // So do all leaves of a tree that is walked over, from what the definitions are configured as now.
  ghost predicate TreeFits(tree: CertTree, order: seq<KinkCert>, names: Option<AltNames>)
    requires forall c | c in order :: c in tree
    reads Definitions(tree)
  {
    forall i | 0 <= i < |order| ::
      AllFit(ConfigsOf(tree), names, Walk(tree, order[..i]) + [order[i]], tree[order[i]])
  }

  // The current task of a reconcile is allowed by what it knows.
  lemma CurrentAllowed(server: Server, me: Pid)
    requires server.Valid() && At(server.sys, me)
    ensures var pr := server.sys.procs[me]; Allowed(server.cfg, pr.actor, pr.todo[0], pr.done, pr.keys.Keys)
  {
    server.StateIsSafe();
    assert Typed(server.cfg, server.sys.procs[me]);
  }

  lemma SecretsOrdered(server: Server)
    requires server.Valid()
    ensures Ordered(server.cfg, server.sys.secrets.Keys)
  {
    server.StateIsSafe();
  }

  lemma StoredNamesAreTheWriters(server: Server)
    requires server.Valid() && server.cfg.tree == ShippedTreeNames()
    ensures API_SERVER_CERT in TreeNames(server.cfg.tree) && NamesTraced(server.cfg, server.sys)
  {
    hide Run, WellFormed, NamesTraced;
    assert "ca" in ShippedTreeNames() && API_SERVER_CERT in ShippedTreeNames()["ca"];
    EveryRunTracesNames(server.cfg, server.log);
  }

  // Where a kubeconfig is next, the root CA is stored.
  lemma KubeconfigFindsCA(server: Server, me: Pid)
    requires server.Valid() && server.cfg.tree == ShippedTreeNames()
    requires At(server.sys, me) && Current(server.sys, me) == PutKubeconfig
    ensures "ca" in server.sys.secrets
  {
    server.StateIsSafe();
    var pr := server.sys.procs[me];
    assert Typed(server.cfg, pr) && Allowed(server.cfg, pr.actor, PutKubeconfig, pr.done, pr.keys.Keys);
    assert IsControlPlane(server.sys, me) && "ca" in server.cfg.tree && "ca" in pr.done;
  }

  // A secret stored once is stored now as it was.
  lemma StoredStays(server: Server, earlier: seq<Event>, n: string)
    requires server.Valid() && earlier <= server.log && n in Run(server.cfg, InitialState(), earlier).secrets
    ensures n in server.sys.secrets
    ensures server.sys.secrets[n] == Run(server.cfg, InitialState(), earlier).secrets[n]
  {
    var cfg, more := server.cfg, server.log[|earlier|..];
    assert server.log == earlier + more;
    RunAppend(cfg, InitialState(), earlier, more);
    EveryRunIsSafe(cfg, earlier);
    CreateOnce(cfg, Run(cfg, InitialState(), earlier), more, n);
  }

  class Manager {
    const server: Server
    const me: Pid
    const cluster: ClusterSpec
    ghost const actor: Actor

    constructor (server: Server, me: Pid, cluster: ClusterSpec)
      requires IsControlPlane(server.sys, me) && server.sys.procs[me].actor.spec == cluster
      ensures this.server == server && this.me == me && this.cluster == cluster
      ensures actor == server.sys.procs[me].actor
    {
      this.server, this.me, this.cluster := server, me, cluster;
      this.actor := server.sys.procs[me].actor;
    }

    ghost function Todo(): seq<Task>
      requires me in server.sys.procs
      reads server
    {
      server.sys.procs[me].todo
    }

    ghost predicate Mine()
      reads server
    {
      && server.Valid() && me in server.sys.procs && server.sys.procs[me].actor == actor
      && actor.ControlPlaneActor? && actor.spec == cluster
    }

    ghost predicate Ready()
      reads server
    {
      Mine() && !server.sys.procs[me].missing
    }

    // Nothing else happens, nothing fails, and every read is current.
    predicate FaultFree()
      reads server
    {
      server.quiet && server.reliable && server.current
    }

    ghost function Names(): Option<AltNames> {
      AltNamesOf(server.cfg.lib, cluster)
    }

    /** Get, else create: afterwards the secret is stored, whoever stored it. */
    method LookupOrCreateSecret(name: string, names: AltNames) returns (ok: bool)
      requires Ready() && Todo() != [] && IsPut(Todo()[0]) && name == NameOf(Todo()[0])
      requires names == PutNames(server.cfg.lib, Todo()[0], actor)
      modifies server
      ensures Mine() && old(server.log) <= server.log
      ensures ok ==> Ready() && Todo() == old(Todo())[1..] && name in server.sys.secrets
      ensures server.quiet ==> server.sys.machines == old(server.sys.machines)
      ensures FaultFree() ==> ok
    {
      CurrentAllowed(server, me);
      var found := server.GetSecret(me, name);
      match found
      case Found => ok := true;
      case NotFound => ok := server.CreateSecret(me, name, names);
      case Failed => ok := false;
    }

    method CreateFromCA(leaf: KinkCert, ghost all: set<KinkCert>, ghost base: map<KinkCert, AltNames>,
                        ghost met: seq<KinkCert>)
      returns (ok: bool)
      requires leaf in all && Configured(all, base, Names(), met)
      requires Ready() && Todo() != [] && Todo()[0].PutLeaf? && Todo()[0].leaf == leaf.name
      requires Fits(base, Names(), met, leaf)
      modifies server, leaf`config
      ensures Mine() && old(server.log) <= server.log
      ensures Configured(all, base, Names(), met + [leaf])
      ensures ok ==> Ready() && Todo() == old(Todo())[1..]
      ensures ok ==> leaf.name in server.sys.secrets && forall n | n in server.sys.secrets && n != leaf.name ::
                server.sys.secrets[n].key != server.sys.secrets[leaf.name].key
      ensures server.quiet ==> server.sys.machines == old(server.sys.machines)
      ensures FaultFree() ==> ok
    {
      Configure(leaf, server.cfg.lib, cluster, all, base, met);
      var failed := server.MayFail();  // generating the key and the certificate
      if failed {
        return false;
      }
      ok := LookupOrCreateSecret(leaf.name, leaf.config);
      server.KeysDiffer();
    }

    method CreateLeaves(ca: string, leaves: seq<KinkCert>, ghost rest: seq<Task>, ghost all: set<KinkCert>,
                        ghost base: map<KinkCert, AltNames>, ghost met: seq<KinkCert>)
      returns (ok: bool, ghost seen: seq<KinkCert>)
      requires (forall l | l in leaves :: l in all) && Configured(all, base, Names(), met)
      requires Ready() && Todo() == LeafTasks(ca, NamesOf(leaves)) + rest && AllFit(base, Names(), met, leaves)
      modifies server, set l | l in leaves
      ensures Mine() && old(server.log) <= server.log
      ensures seen <= leaves && Configured(all, base, Names(), met + seen)
      ensures ok ==> Ready() && Todo() == rest && seen == leaves
      ensures server.quiet ==> server.sys.machines == old(server.sys.machines)
      ensures FaultFree() ==> ok
    {
      hide Run, WellFormed, LeafTasks, Count, MutateTimes, Configured, Server.OthersActed, Server.EndsWith;
      assert leaves[0..] == leaves && met + leaves[..0] == met;
      seen := [];
      for i := 0 to |leaves|
        invariant Ready() && old(server.log) <= server.log
        invariant Todo() == LeafTasks(ca, NamesOf(leaves[i..])) + rest
        invariant seen == leaves[..i] && Configured(all, base, Names(), met + seen)
        invariant server.quiet ==> server.sys.machines == old(server.sys.machines)
      {
        LeafTasksUnfold(ca, leaves[i..], rest);
        assert leaves[i] in leaves;
        ok := CreateFromCA(leaves[i], all, base, met + seen);
        assert met + seen + [leaves[i]] == met + (seen + [leaves[i]]);
        seen := seen + [leaves[i]];
        if !ok {
          return;
        }
        assert leaves[i..][1..] == leaves[i + 1..];
      }
      LeafTasksUnfold(ca, leaves[|leaves|..], rest);
      ok := true;
    }

    // One round of the outer loop of CreateTree.
    method CreateBlock(ca: KinkCert, leaves: seq<KinkCert>, ghost rest: seq<Task>, ghost all: set<KinkCert>,
                       ghost base: map<KinkCert, AltNames>, ghost met: seq<KinkCert>)
      returns (ok: bool, ghost seen: seq<KinkCert>)
      requires ca in all && (forall l | l in leaves :: l in all) && Configured(all, base, Names(), met)
      requires Ready() && |Todo()| >= 2 && Todo()[0] == NewCA(ca.name) && Todo()[1..][0] == PutCA(ca.name)
      requires Todo()[1..][1..] == LeafTasks(ca.name, NamesOf(leaves)) + rest
      requires AllFit(base, Names(), met + [ca], leaves)
      modifies server, ca, set l | l in leaves
      ensures Mine() && old(server.log) <= server.log
      ensures seen <= [ca] + leaves && Configured(all, base, Names(), met + seen)
      ensures ok ==> Ready() && Todo() == rest && seen == [ca] + leaves
      ensures server.quiet ==> server.sys.machines == old(server.sys.machines)
      ensures FaultFree() ==> ok
    {
      hide Run, WellFormed, LeafTasks, Count, MutateTimes, Configured, Server.OthersActed, Server.EndsWith;
      Configure(ca, server.cfg.lib, cluster, all, base, met);
      seen := [ca];
      ok := server.GenerateCA(me, ca.name);
      if ok {
        ok := LookupOrCreateSecret(ca.name, NoNames());
      }
      if ok {
        ghost var below: seq<KinkCert>;
        ok, below := CreateLeaves(ca.name, leaves, rest, all, base, met + [ca]);
        assert met + [ca] + below == met + ([ca] + below);
        seen := [ca] + below;
      }
    }

    // The i-th round of the outer loop of CreateTree, and what it leaves for the next.
    method CreateRound(tree: CertTree, order: seq<KinkCert>, i: nat, ghost rest: seq<Task>, ghost all: set<KinkCert>,
                       ghost base: map<KinkCert, AltNames>)
      returns (ok: bool, ghost seen: seq<KinkCert>)
      requires i < |order| && (forall c | c in order :: c in tree) && all == Definitions(tree)
      requires Ready() && Todo() == TreeTasks(BlocksOf(tree, order[i..])) + rest
      requires Configured(all, base, Names(), Walk(tree, order[..i]))
      requires AllFit(base, Names(), Walk(tree, order[..i]) + [order[i]], tree[order[i]])
      modifies server, all
      ensures Mine() && old(server.log) <= server.log
      ensures seen <= Walk(tree, order[..i + 1]) && Configured(all, base, Names(), seen)
      ensures ok ==> Ready() && Todo() == TreeTasks(BlocksOf(tree, order[i + 1..])) + rest
      ensures ok ==> seen == Walk(tree, order[..i + 1])
      ensures server.quiet ==> server.sys.machines == old(server.sys.machines)
      ensures FaultFree() ==> ok
    {
      hide Run, WellFormed, TreeTasks, LeafTasks, BlocksOf, Walk, Count, MutateTimes, Definitions, Configured;
      var ca := order[i];
      assert order[i..][1..] == order[i + 1..];
      ghost var later := TreeTasks(BlocksOf(tree, order[i + 1..]));
      TreeTasksUnfold(tree, order[i..]);
      BlockTasksUnfold(ca.name, LeafTasks(ca.name, NamesOf(tree[ca])), later, rest);
      DefinitionsOf(tree, ca);
      ok, seen := CreateBlock(ca, tree[ca], later + rest, all, base, Walk(tree, order[..i]));
      WalkOneMore(tree, order, i);
      seen := Walk(tree, order[..i]) + seen;
    }

    /** Writes the whole tree, CAs and leaves in the order the maps are iterated in, and stops at the first
        error. Each definition is configured once for every time it was met up to there. */
    method CreateTree(tree: CertTree, order: seq<KinkCert>, ghost rest: seq<Task>)
      returns (ok: bool, ghost seen: seq<KinkCert>)
      requires forall c | c in order :: c in tree
      requires Ready() && Todo() == TreeTasks(BlocksOf(tree, order)) + rest && TreeFits(tree, order, Names())
      modifies server, Definitions(tree)
      ensures Mine() && old(server.log) <= server.log
      ensures ok ==> Ready() && Todo() == rest
      ensures seen <= Walk(tree, order) && (ok ==> seen == Walk(tree, order))
      ensures Configured(Definitions(tree), old(ConfigsOf(tree)), Names(), seen)
      ensures server.quiet ==> server.sys.machines == old(server.sys.machines)
      ensures FaultFree() ==> ok
    {
      hide Run, WellFormed, TreeTasks, LeafTasks, BlocksOf, Walk, Count, MutateTimes, Definitions, Configured;
      ghost var all := Definitions(tree);
      ghost var base := ConfigsOf(tree);
      seen := [];
      NothingMet(tree, order, Names(), all, base);
      assert order[0..] == order;
      for i := 0 to |order|
        invariant Ready() && old(server.log) <= server.log
        invariant Todo() == TreeTasks(BlocksOf(tree, order[i..])) + rest
        invariant seen == Walk(tree, order[..i]) && Configured(all, base, Names(), seen)
        invariant server.quiet ==> server.sys.machines == old(server.sys.machines)
      {
        ok, seen := CreateRound(tree, order, i, rest, all, base);
        if !ok {
          WalkPrefix(tree, order, i + 1);
          return;
        }
      }
      NothingLeft(tree, order[|order|..], rest);
      assert order[..|order|] == order;
      ok := true;
    }

    /** The tree of the shipped definitions, then the service-account key. On success every name but the
        kubeconfig is stored, and `api`, the definition of the API server's certificate, carries each computed name
        once; on failure it carries them once or not at all. */
    method LookupOrGenerateCAs(certOrder: seq<string>, caOrder: seq<string>, ghost rest: seq<Task>)
      returns (ok: bool, ghost api: KinkCert)
      requires IsCertOrder(certOrder) && IsCAOrder(caOrder) && server.cfg.tree == ShippedTreeNames()
      requires Ready() && Todo() == TreeTasks(ShippedBlocks(certOrder, caOrder)) + ([PutSA] + rest)
      modifies server
      ensures Mine() && old(server.log) <= server.log
      ensures ok ==> Ready() && Todo() == rest && SA in server.sys.secrets
      ensures ok ==> TreeNames(ShippedTreeNames()) <= server.sys.secrets.Keys
      ensures api.name == "apiserver"
      ensures api.config == NoNames() || api.config == Names().GetOr(NoNames())
      ensures ok ==> api.config == Names().GetOr(NoNames())
      ensures ok ==> api.name in server.sys.secrets && api.name in server.sys.writtenBy
      ensures ok && server.sys.writtenBy[api.name] == me ==> server.sys.secrets[api.name].names == api.config
      ensures server.quiet ==> server.sys.machines == old(server.sys.machines)
      ensures FaultFree() ==> ok
    {
      hide Run, WellFormed, TreeTasks, ShippedBlocks, ShippedTreeNames, IsGrouped, IsCertOrder, IsCAOrder, MutateTimes,
           Count, Walk, AltNamesOf, Nodes, BlocksOf, Definitions, AllNames, TreeNames;
      var m, tree := GroupShipped(certOrder, caOrder);
      api := m["apiserver"];
      APIServerMetOnce(m, certOrder, caOrder, tree);
      ShippedTreeFits(m, certOrder, caOrder, tree, Names());
      ghost var seen: seq<KinkCert>;
      ok, seen := CreateTree(tree, Nodes(m, caOrder), [PutSA] + rest);
      NamesAppearOnce(Walk(tree, Nodes(m, caOrder)), seen, api, Names());
      if !ok {
        return;
      }
      var failed := server.MayFail();  // generating the key
      if failed {
        ok := false;
        return;
      }
      assert ([PutSA] + rest)[1..] == rest;
      ok := LookupOrCreateSecret(SA, NoNames());
      SecretsOrdered(server);
      StoredNamesAreTheWriters(server);
    }

    /** Get, else read the stored root CA and create: on success all secrets of the cluster are stored. What is read
        is the root CA that stays stored, whoever else writes. */
    method LookupOrGenerateKubeconfig() returns (ok: bool, ghost read: Option<Secret>)
      requires server.cfg.tree == ShippedTreeNames()
      requires Ready() && Todo() != [] && Todo()[0] == PutKubeconfig
      modifies server
      ensures Mine() && old(server.log) <= server.log
      ensures ok ==> Ready() && Todo() == old(Todo())[1..] && AllNames(server.cfg.tree) <= server.sys.secrets.Keys
      ensures read.Some? ==> "ca" in server.sys.secrets && read.value == server.sys.secrets["ca"]
      ensures ok && read.None? ==> server.EndsWith(old(server.log), me, SecretFound(me))
      ensures server.quiet ==> server.sys.machines == old(server.sys.machines)
      ensures FaultFree() ==> ok
    {
      hide Run, WellFormed;
      read := None;
      CurrentAllowed(server, me);
      KubeconfigFindsCA(server, me);
      var found := server.GetSecret(me, KUBECONFIG);
      ok := found == Found;
      if found == NotFound {
        var rootCA := server.ReadSecret(me, "ca");
        read := rootCA;
        if rootCA.Some? {
          ghost var earlier := server.log;
          ok := server.CreateSecret(me, KUBECONFIG, NoNames());
          StoredStays(server, earlier, "ca");
        }
      }
      SecretsOrdered(server);
    }
  }

  // --- The shipped definitions grouped --------------------------------------------------------------------

  predicate IsShippedMap(m: CertMap) {
    && m.Keys == ShippedCA().Keys
    && forall n | n in m :: m[n].name == n && m[n].caName == ShippedCA()[n]
  }

  lemma ShippedNames(n: string)
    ensures n in ShippedCA() <==> exists i | 0 <= i < 5 :: ShippedDefinitions()[i].0 == n
    ensures forall i | 0 <= i < 5 :: ShippedDefinitions()[i].0 == n ==>
                                       n in ShippedCA() && ShippedCA()[n] == ShippedDefinitions()[i].1
  {
    assert ShippedDefinitions()[0].0 == "ca" && ShippedDefinitions()[1].0 == "apiserver"
        && ShippedDefinitions()[2].0 == "kubelet-client" && ShippedDefinitions()[3].0 == "front-proxy-ca"
        && ShippedDefinitions()[4].0 == "front-proxy-client";
  }

  lemma ShippedMap(certs: seq<KinkCert>, m: CertMap, certOrder: seq<string>)
    requires |certs| == 5 && IsCertOrder(certOrder)
    requires forall i | 0 <= i < 5 :: (certs[i].name, certs[i].caName) == ShippedDefinitions()[i]
    requires forall n :: n in m <==> exists i | 0 <= i < |certs| :: certs[i].name == n
    requires forall n | n in m :: exists i | 0 <= i < |certs| :: certs[i] == m[n] && certs[i].name == n
    ensures IsShippedMap(m) && Visits(m, certOrder)
  {
    assert |ShippedDefinitions()| == 5;
    hide ShippedDefinitions, ShippedCA;
    forall n ensures n in m <==> n in ShippedCA() {
      ShippedNames(n);
      if i :| 0 <= i < 5 && ShippedDefinitions()[i].0 == n {
        assert certs[i].name == n;
      }
    }
    forall n | n in m ensures m[n].name == n && m[n].caName == ShippedCA()[n] {
      ShippedNames(n);
      var i :| 0 <= i < |certs| && certs[i] == m[n] && certs[i].name == n;
    }
    assert forall n :: n in certOrder <==> n in SetOf(certOrder);
  }

  lemma DefinitionsOfMap(m: CertMap, order: seq<string>, tree: CertTree)
    requires Visits(m, order)
    requires forall ca :: ca in tree <==> Opens(m, order, ca)
    requires forall ca | ca in tree :: tree[ca] == Leaves(m, order, ca)
    ensures forall c | c in Definitions(tree) :: exists n | n in m :: m[n] == c
  {
    forall c | c in Definitions(tree) ensures exists n | n in m :: m[n] == c {
      if c in tree {
        assert Opens(m, order, c);
      } else {
        var ca :| ca in tree && c in tree[ca];
        LeavesAreBelow(m, order, ca, c);
      }
    }
  }

  lemma {:induction false} ShippedLeafNames(m: CertMap, certOrder: seq<string>, ca: string)
    requires IsShippedMap(m) && ca in ShippedTreeNames() && forall k | k in certOrder :: k in m
    ensures NamesOf(Leaves(m, certOrder, m[ca])) == LeafOrder(certOrder, ca)
  {
    if certOrder != [] {
      var rest, last := certOrder[..|certOrder| - 1], certOrder[|certOrder| - 1];
      assert last in certOrder && forall k | k in rest :: k in certOrder;
      ShippedLeafNames(m, rest, ca);
      assert HangsBelow(m, last, m[ca]) <==> ShippedCA()[last] == ca by {
        if HangsBelow(m, last, m[ca]) {
          assert m[m[last].caName].name == m[ca].name;
        }
      }
    }
  }

  lemma ShippedTree(m: CertMap, certOrder: seq<string>, caOrder: seq<string>, tree: Option<CertTree>)
    requires IsShippedMap(m) && Visits(m, certOrder) && IsCAOrder(caOrder)
    requires tree.None? <==> exists k | k in m :: m[k].caName != "" && m[k].caName !in m
    requires tree.Some? ==> forall ca :: ca in tree.value <==> Opens(m, certOrder, ca)
    requires tree.Some? ==> forall ca | ca in tree.value :: tree.value[ca] == Leaves(m, certOrder, ca)
    ensures tree.Some? && forall c | c in caOrder :: c in m && m[c] in tree.value
    ensures forall k | k in m :: !Dangling(m, k)
    ensures forall c | c in Nodes(m, caOrder) :: c in tree.value
    ensures BlocksOf(tree.value, Nodes(m, caOrder)) == ShippedBlocks(certOrder, caOrder)
  {
    assert forall k | k in m :: !Dangling(m, k);
    forall c | c in caOrder ensures c in ShippedTreeNames() && c in m && m[c] in tree.value {
      assert c in SetOf(caOrder);
      assert c in certOrder && m[c].caName == "";
      assert Opens(m, certOrder, m[c]);
    }
    SameBlocks(m, certOrder, caOrder, tree.value);
  }

  function Nodes(m: CertMap, caOrder: seq<string>): seq<KinkCert>
    requires forall c | c in caOrder :: c in m
  {
    if caOrder == [] then [] else [m[caOrder[0]]] + Nodes(m, caOrder[1..])
  }

  lemma {:induction false} SameBlocks(m: CertMap, certOrder: seq<string>, caOrder: seq<string>, tree: CertTree)
    requires IsShippedMap(m) && Visits(m, certOrder)
    requires forall c | c in caOrder :: c in ShippedTreeNames() && c in m && m[c] in tree
    requires forall ca | ca in tree :: tree[ca] == Leaves(m, certOrder, ca)
    ensures forall c | c in Nodes(m, caOrder) :: c in tree
    ensures BlocksOf(tree, Nodes(m, caOrder)) == ShippedBlocks(certOrder, caOrder)
  {
    hide Leaves, LeafOrder;
    if caOrder != [] {
      assert caOrder[0] in caOrder && forall c | c in caOrder[1..] :: c in caOrder;
      SameBlocks(m, certOrder, caOrder[1..], tree);
      ShippedLeafNames(m, certOrder, caOrder[0]);
      assert Nodes(m, caOrder)[1..] == Nodes(m, caOrder[1..]);
    }
  }

  // The shipped definitions in a map, and the tree they are grouped into.
  predicate IsGrouped(m: CertMap, certOrder: seq<string>, caOrder: seq<string>, tree: CertTree) {
    && IsShippedMap(m) && Visits(m, certOrder) && IsCertOrder(certOrder) && IsCAOrder(caOrder)
    && (forall x | x in caOrder :: x in m)
    && (forall x | x in m :: !Dangling(m, x))
    && (forall ca | ca in tree :: tree[ca] == Leaves(m, certOrder, ca))
    && (forall x | x in Nodes(m, caOrder) :: x in tree)
  }

  // GetCerts().AsMap().CertTree()
  method GroupShipped(certOrder: seq<string>, ghost caOrder: seq<string>) returns (m: CertMap, tree: CertTree)
    requires IsCertOrder(certOrder) && IsCAOrder(caOrder)
    ensures IsGrouped(m, certOrder, caOrder, tree) && forall ca :: ca in tree <==> Opens(m, certOrder, ca)
    ensures (forall c | c in caOrder :: c in m) && forall c | c in Nodes(m, caOrder) :: c in tree
    ensures BlocksOf(tree, Nodes(m, caOrder)) == ShippedBlocks(certOrder, caOrder)
    ensures forall c | c in Definitions(tree) :: fresh(c) && c.config == NoNames()
    ensures forall n | n in m :: |m[n].mutators| == if n == "apiserver" then 1 else 0
    ensures "apiserver" in m && m["apiserver"].name == "apiserver" && m["apiserver"] in Definitions(tree)
  {
    hide IsCertOrder, IsCAOrder, Opens, Leaves, ShippedBlocks, BlocksOf, Nodes, Definitions, Dangling, IsShippedMap,
         Visits, IsGrouped, ShippedDefinitions, LastNamed;
    var certs := GetCerts();
    m := AsMap(certs);
    ShippedMap(certs, m, certOrder);
    MutatorsOfMap(certs, m);
    var grouped := CertTreeOf(m, certOrder);
    ShippedTree(m, certOrder, caOrder, grouped);
    tree := grouped.value;
    DefinitionsOfMap(m, certOrder, tree);
    var _ := APIServerOf(m, certOrder, tree);
    Grouped(m, certOrder, caOrder, tree);
    DefinitionsAreListed(certs, m, tree);
  }

  lemma Grouped(m: CertMap, certOrder: seq<string>, caOrder: seq<string>, tree: CertTree)
    requires IsShippedMap(m) && Visits(m, certOrder) && IsCertOrder(certOrder) && IsCAOrder(caOrder)
    requires (forall x | x in caOrder :: x in m) && forall x | x in m :: !Dangling(m, x)
    requires forall ca | ca in tree :: tree[ca] == Leaves(m, certOrder, ca)
    requires forall x | x in Nodes(m, caOrder) :: x in tree
    ensures IsGrouped(m, certOrder, caOrder, tree)
  {
  }

  lemma MutatorsOfMap(certs: seq<KinkCert>, m: CertMap)
    requires forall n | n in m :: exists i | 0 <= i < |certs| :: certs[i] == m[n] && certs[i].name == n
    requires forall i | 0 <= i < |certs| :: |certs[i].mutators| == if certs[i].name == "apiserver" then 1 else 0
    ensures forall n | n in m :: |m[n].mutators| == if n == "apiserver" then 1 else 0
  {
  }

  lemma DefinitionsAreListed(certs: seq<KinkCert>, m: CertMap, tree: CertTree)
    requires forall c | c in Definitions(tree) :: exists n | n in m :: m[n] == c
    requires forall n | n in m :: exists i | 0 <= i < |certs| :: certs[i] == m[n] && certs[i].name == n
    ensures forall c | c in Definitions(tree) :: c in certs
  {
  }

  // --- The API server's definition ------------------------------------------------------------------------

  // In the shipped tree the API server's definition hangs below the root CA and is no node itself.
  lemma APIServerOf(m: CertMap, visit: seq<string>, tree: CertTree) returns (api: KinkCert)
    requires IsShippedMap(m) && Visits(m, visit)
    requires forall ca :: ca in tree <==> Opens(m, visit, ca)
    requires forall ca | ca in tree :: tree[ca] == Leaves(m, visit, ca)
    ensures "apiserver" in m && api == m["apiserver"] && api.name == "apiserver" && api.caName == "ca"
    ensures api !in tree && api in Definitions(tree)
    ensures forall x | x in m && m[x] == api :: x == "apiserver"
  {
    hide Leaves;
    assert "apiserver" in ShippedCA() && ShippedCA()["apiserver"] == "ca" && "ca" in ShippedCA();
    api := m["apiserver"];
    assert "apiserver" in visit && HangsBelow(m, "apiserver", m["ca"]);
    assert m["ca"] in tree;
    LeafIsListed(m, visit, "apiserver", m["ca"]);
  }

  lemma {:induction false} LeafIsListed(m: CertMap, visit: seq<string>, k: string, ca: KinkCert)
    requires (forall x | x in visit :: x in m) && k in visit && HangsBelow(m, k, ca)
    ensures m[k] in Leaves(m, visit, ca)
  {
    var rest, last := visit[..|visit| - 1], visit[|visit| - 1];
    assert last in visit && forall x | x in rest :: x in visit;
    if k != last {
      LeafIsListed(m, rest, k, ca);
    }
  }

  lemma {:induction false} NodesContent(m: CertMap, caOrder: seq<string>)
    requires forall c | c in caOrder :: c in m && m[c].name == c
    ensures forall x :: x in Nodes(m, caOrder) <==> exists c | c in caOrder :: m[c] == x
    ensures NoRepeats(caOrder) ==> NoRepeats(Nodes(m, caOrder))
  {
    if caOrder != [] {
      var first, rest := caOrder[0], caOrder[1..];
      assert first in caOrder && forall c | c in rest :: c in caOrder;
      NodesContent(m, rest);
      assert forall c :: c in caOrder <==> c == first || c in rest;
      if NoRepeats(caOrder) {
        assert NoRepeats(rest) && first !in rest;
        assert m[first] !in Nodes(m, rest);
      }
    }
  }

  // The nodes of the shipped tree are its two roots, each once.
  lemma ShippedNodes(m: CertMap, certOrder: seq<string>, caOrder: seq<string>, tree: CertTree)
    requires IsShippedMap(m) && Visits(m, certOrder) && IsCAOrder(caOrder) && forall c | c in caOrder :: c in m
    requires forall ca :: ca in tree <==> Opens(m, certOrder, ca)
    ensures NoRepeats(Nodes(m, caOrder)) && forall x :: x in Nodes(m, caOrder) <==> x in tree
  {
    NodesContent(m, caOrder);
    assert forall c :: c in caOrder <==> c in SetOf(caOrder);
    assert ShippedTreeNames().Keys == {"ca", "front-proxy-ca"};
    forall x ensures x in Nodes(m, caOrder) <==> x in tree {
      if c :| c in caOrder && m[c] == x {
        assert c in certOrder && m[c].caName == "";
      }
      if x in tree {
        var k :| k in certOrder && ((m[k].caName == "" && m[k] == x) || HangsBelow(m, k, x));
        var c := if m[k].caName == "" then k else m[k].caName;
        assert m[c] == x && c in caOrder;
      }
    }
  }

  lemma CountPrefix(a: seq<KinkCert>, b: seq<KinkCert>, x: KinkCert)
    requires a <= b
    ensures Count(a, x) <= Count(b, x)
  {
    assert b == a + b[|a|..];
    CountConcat(a, b[|a|..], x);
  }

  // The walk over the shipped tree meets the API server's definition once.
  lemma APIServerMetOnce(m: CertMap, certOrder: seq<string>, caOrder: seq<string>, tree: CertTree)
    requires IsGrouped(m, certOrder, caOrder, tree) && forall ca :: ca in tree <==> Opens(m, certOrder, ca)
    requires "apiserver" in m
    ensures forall x | x in Nodes(m, caOrder) :: x in tree
    ensures Count(Walk(tree, Nodes(m, caOrder)), m["apiserver"]) == 1
  {
    hide Leaves, Opens, IsShippedMap, Walk, Count, ShippedTreeNames, ShippedCA;
    var _ := APIServerOf(m, certOrder, tree);
    ShippedNodes(m, certOrder, caOrder, tree);
    EachConfiguredOnce(m, certOrder, tree, Nodes(m, caOrder), "apiserver");
  }

  // Configured from nothing by its one mutator, once for each time it was met up to some point of a walk that meets
  // it once, the definition carries each computed name once; before that point it carries none.
  lemma NamesAppearOnce(walk: seq<KinkCert>, seen: seq<KinkCert>, api: KinkCert, names: Option<AltNames>)
    requires seen <= walk && Count(walk, api) == 1 && |api.mutators| == 1
    ensures var config := MutateTimes(NoNames(), names, Count(seen, api) * |api.mutators|);
            && (config == NoNames() || config == names.GetOr(NoNames()))
            && (seen == walk ==> config == names.GetOr(NoNames()))
  {
    hide Count;
    CountPrefix(seen, walk, api);
    MutationsAppendCopies(NoNames(), names, Count(seen, api));
    if Count(seen, api) == 0 {
      assert MutateTimes(NoNames(), names, 0) == NoNames();
    } else {
      OneCopy(names);
    }
  }

  lemma OneCopy(names: Option<AltNames>)
    ensures names.Some? ==> Repeat(names.value.ips, 1) == names.value.ips
    ensures names.Some? ==> Repeat(names.value.dnsNames, 1) == names.value.dnsNames
  {
    if names.Some? {
      assert Repeat(names.value.ips, 0) == [] && Repeat(names.value.dnsNames, 0) == [];
    }
  }

  lemma EveryoneMetOnce(m: CertMap, certOrder: seq<string>, caOrder: seq<string>, tree: CertTree, n: string)
    requires IsGrouped(m, certOrder, caOrder, tree) && forall ca :: ca in tree <==> Opens(m, certOrder, ca)
    requires n in m && m[n] !in tree
    ensures forall x | x in Nodes(m, caOrder) :: x in tree
    ensures Count(Walk(tree, Nodes(m, caOrder)), m[n]) == 1
  {
    hide Leaves, Walk, Count, ShippedTreeNames, ShippedCA;
    ShippedNodes(m, certOrder, caOrder, tree);
    EachConfiguredOnce(m, certOrder, tree, Nodes(m, caOrder), n);
  }

  // How far a walk has come at the j-th leaf of the i-th node.
  lemma WalkAt(tree: CertTree, order: seq<KinkCert>, i: nat, j: nat)
    requires i < |order| && (forall c | c in order :: c in tree) && j < |tree[order[i]]|
    ensures var leaves := tree[order[i]];
            Walk(tree, order[..i]) + [order[i]] + leaves[..j] + [leaves[j]] <= Walk(tree, order)
  {
    var leaves := tree[order[i]];
    WalkPrefix(tree, order, i + 1);
    WalkOneMore(tree, order, i);
    assert leaves == leaves[..j] + [leaves[j]] + leaves[j + 1..];
    assert Walk(tree, order[..i + 1])
        == Walk(tree, order[..i]) + [order[i]] + leaves[..j] + [leaves[j]] + leaves[j + 1..];
  }

  lemma MetOnceFits(walk: seq<KinkCert>, met: seq<KinkCert>, leaf: KinkCert, base: map<KinkCert, AltNames>,
                    names: Option<AltNames>)
    requires met + [leaf] <= walk && Count(walk, leaf) == 1 && leaf in base && base[leaf] == NoNames()
    requires |leaf.mutators| == if leaf.name == API_SERVER_CERT then 1 else 0
    ensures Fits(base, names, met, leaf)
  {
    CountPrefix(met + [leaf], walk, leaf);
    CountConcat(met, [leaf], leaf);
    CountOnce([leaf], leaf);
    hide Count;
    assert Count(met + [leaf], leaf) == 1;
    MutationsAppendCopies(NoNames(), names, |leaf.mutators|);
    OneCopy(names);
  }

  // The leaves of the shipped tree have the names they are to have when the walk meets them.
  lemma ShippedTreeFits(m: CertMap, certOrder: seq<string>, caOrder: seq<string>, tree: CertTree,
                        names: Option<AltNames>)
    requires IsGrouped(m, certOrder, caOrder, tree) && forall ca :: ca in tree <==> Opens(m, certOrder, ca)
    requires forall c | c in Definitions(tree) :: c.config == NoNames()
    requires forall n | n in m :: |m[n].mutators| == if n == "apiserver" then 1 else 0
    ensures forall c | c in Nodes(m, caOrder) :: c in tree
    ensures TreeFits(tree, Nodes(m, caOrder), names)
  {
    hide IsGrouped, Opens, Walk, Count, Fits, Nodes;
    GroupedMeans(m, certOrder, caOrder, tree);
    var order := Nodes(m, caOrder);
    var base := ConfigsOf(tree);
    forall i, j | 0 <= i < |order| && 0 <= j < |tree[order[i]]|
      ensures Fits(base, names, Walk(tree, order[..i]) + [order[i]] + tree[order[i]][..j], tree[order[i]][j])
    {
      var leaf := tree[order[i]][j];
      var n := LeafOfGrouped(m, certOrder, caOrder, tree, order[i], leaf);
      EveryoneMetOnce(m, certOrder, caOrder, tree, n);
      WalkAt(tree, order, i, j);
      DefinitionsOf(tree, order[i]);
      MetOnceFits(Walk(tree, order), Walk(tree, order[..i]) + [order[i]] + tree[order[i]][..j], leaf, base, names);
    }
  }

  lemma GroupedMeans(m: CertMap, certOrder: seq<string>, caOrder: seq<string>, tree: CertTree)
    requires IsGrouped(m, certOrder, caOrder, tree)
    ensures (forall x | x in caOrder :: x in m) && forall x | x in Nodes(m, caOrder) :: x in tree
  {
  }

  // A leaf of the shipped tree is a definition of its own and no node.
  lemma LeafOfGrouped(m: CertMap, certOrder: seq<string>, caOrder: seq<string>, tree: CertTree, ca: KinkCert,
                      leaf: KinkCert) returns (n: string)
    requires IsGrouped(m, certOrder, caOrder, tree) && forall x :: x in tree <==> Opens(m, certOrder, x)
    requires ca in tree && leaf in tree[ca]
    ensures n in m && m[n] == leaf && leaf.name == n && leaf !in tree
  {
    hide Leaves, ShippedTreeNames;
    LeavesAreBelow(m, certOrder, ca, leaf);
    n :| n in certOrder && m[n] == leaf && HangsBelow(m, n, ca);
    if k :| k in certOrder && ((m[k].caName == "" && m[k] == leaf) || HangsBelow(m, k, leaf)) {
      LeafNamesNoCA(n, k);
    }
  }

  lemma LeafNamesNoCA(n: string, k: string)
    requires n in ShippedCA() && k in ShippedCA() && ShippedCA()[n] != ""
    ensures ShippedCA()[k] != n
  {
  }

  // --- How often a definition is configured ---------------------------------------------------------------

  // A walk meets a definition once for each time it meets it as a node, and once for each time it meets its CA.
  lemma {:induction false} WalkCount(m: CertMap, visit: seq<string>, tree: CertTree, order: seq<KinkCert>, k: string)
    requires Visits(m, visit) && NoRepeats(visit) && k in m && !Dangling(m, k)
    requires forall x | x in m && m[x] == m[k] :: x == k
    requires forall ca | ca in tree :: tree[ca] == Leaves(m, visit, ca)
    requires forall c | c in order :: c in tree
    ensures Count(Walk(tree, order), m[k])
         == Count(order, m[k]) + if m[k].caName != "" then Count(order, m[m[k].caName]) else 0
  {
    if order != [] {
      var rest, last := order[..|order| - 1], order[|order| - 1];
      assert last in order && forall c | c in rest :: c in order;
      WalkCount(m, visit, tree, rest, k);
      CountConcat(Walk(tree, rest), [last] + tree[last], m[k]);
      CountConcat([last], tree[last], m[k]);
      EachLeafOnce(m, visit, k, last);
      CountIsMultiplicity(tree[last], m[k]);
      assert [last][..0] == [];
    }
  }

  /** Creating the grouped tree configures every definition exactly once, if no definition is both a leaf and
      a CA: an API server certificate carries each computed name once. */
  lemma EachConfiguredOnce(m: CertMap, visit: seq<string>, tree: CertTree, order: seq<KinkCert>, k: string)
    requires Visits(m, visit) && NoRepeats(visit) && NoRepeats(order)
    requires k in m && forall x | x in m && m[x] == m[k] :: x == k
    requires forall x | x in m :: !Dangling(m, x)
    requires forall ca :: ca in tree <==> Opens(m, visit, ca)
    requires forall ca | ca in tree :: tree[ca] == Leaves(m, visit, ca)
    requires forall c :: c in order <==> c in tree
    requires m[k].caName != "" ==> m[k] !in tree
    ensures Count(Walk(tree, order), m[k]) == 1
  {
    WalkCount(m, visit, tree, order, k);
    CountOnce(order, m[k]);
    assert k in visit;
    if m[k].caName == "" {
      assert Opens(m, visit, m[k]);
    } else {
      var ca := m[m[k].caName];
      assert HangsBelow(m, k, ca);
      assert Opens(m, visit, ca);
      CountOnce(order, ca);
    }
  }

  lemma DefinitionsOf(tree: CertTree, ca: KinkCert)
    requires ca in tree
    ensures ca in Definitions(tree) && forall l | l in tree[ca] :: l in Definitions(tree)
  {
  }

  lemma NothingMet(tree: CertTree, order: seq<KinkCert>, names: Option<AltNames>, all: set<KinkCert>,
                   base: map<KinkCert, AltNames>)
    requires forall x | x in order :: x in tree
    requires base.Keys == all && forall k | k in all :: base[k] == k.config
    ensures Walk(tree, order[..0]) == [] && Configured(all, base, names, [])
  {
  }

  lemma {:induction false} WalkPrefix(tree: CertTree, order: seq<KinkCert>, i: nat)
    requires i <= |order| && forall c | c in order :: c in tree
    ensures Walk(tree, order[..i]) <= Walk(tree, order)
    decreases |order|
  {
    if i < |order| {
      var n := |order| - 1;
      assert forall c | c in order[..n] :: c in order;
      WalkPrefix(tree, order[..n], i);
      assert order[..n][..i] == order[..i];
    } else {
      assert order[..i] == order;
    }
  }

  lemma NothingLeft(tree: CertTree, order: seq<KinkCert>, rest: seq<Task>)
    requires order == []
    ensures TreeTasks(BlocksOf(tree, order)) + rest == rest
  {
  }

  lemma LeafTasksUnfold(ca: string, leaves: seq<KinkCert>, rest: seq<Task>)
    ensures leaves == [] ==> LeafTasks(ca, NamesOf(leaves)) + rest == rest
    ensures leaves != [] ==> (
              var todo := LeafTasks(ca, NamesOf(leaves)) + rest;
              todo != [] && todo[0] == PutLeaf(leaves[0].name, ca) &&
              todo[1..] == LeafTasks(ca, NamesOf(leaves[1..])) + rest)
  {
    if leaves != [] {
      assert NamesOf(leaves)[1..] == NamesOf(leaves[1..]);
    }
  }

  lemma BlockTasksUnfold(ca: string, leaves: seq<Task>, later: seq<Task>, rest: seq<Task>)
    ensures var todo := [NewCA(ca), PutCA(ca)] + leaves + later + rest;
            && |todo| >= 2 && todo[0] == NewCA(ca) && todo[1..][0] == PutCA(ca)
            && todo[1..][1..] == leaves + (later + rest)
  {
    assert [NewCA(ca), PutCA(ca)] + leaves + later + rest == [NewCA(ca), PutCA(ca)] + (leaves + (later + rest));
  }

  lemma TreeTasksUnfold(tree: CertTree, order: seq<KinkCert>)
    requires order != [] && forall c | c in order :: c in tree
    ensures TreeTasks(BlocksOf(tree, order))
         == [NewCA(order[0].name), PutCA(order[0].name)] + LeafTasks(order[0].name, NamesOf(tree[order[0]]))
            + TreeTasks(BlocksOf(tree, order[1..]))
  {
    assert BlocksOf(tree, order)[1..] == BlocksOf(tree, order[1..]);
  }

  lemma WalkOneMore(tree: CertTree, order: seq<KinkCert>, i: nat)
    requires i < |order| && forall c | c in order :: c in tree
    ensures Walk(tree, order[..i + 1]) == Walk(tree, order[..i]) + [order[i]] + tree[order[i]]
  {
    assert order[..i + 1][..i] == order[..i];
  }
}
