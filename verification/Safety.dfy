/** What every run keeps, whatever calls fail, crash or interleave: the order in which things come to exist,
    which key signed which certificate, and who owns the shared service. */
module Safety {
  import opened Names
  import opened Protocol
  import opened Typing

  // --- The order of secrets -------------------------------------------------------------------------------

  // What a control-plane reconcile believes to be stored is stored.
  ghost predicate Informed(s: Sys) {
    forall p | p in s.procs && IsControlPlane(s, p) :: s.procs[p].done <= s.secrets.Keys
  }

  ghost predicate Ordered(cfg: Config, stored: set<string>) {
    && stored <= AllNames(cfg.tree)
    && (forall c, l | c in cfg.tree && l in cfg.tree[c] && l in stored :: c in stored)
    && (SA in stored ==> TreeNames(cfg.tree) <= stored)
    && (KUBECONFIG in stored ==> TreeNames(cfg.tree) + {SA} <= stored)
  }

  lemma StepKeepsInformed(cfg: Config, s: Sys, e: Event)
    requires Informed(s) && AllTyped(cfg, s) && Enabled(cfg, s, e)
    ensures Informed(Apply(cfg, s, e))
  {
    var s' := Apply(cfg, s, e);
    assert s.secrets.Keys <= s'.secrets.Keys;
    forall q | q in s'.procs && IsControlPlane(s', q) ensures s'.procs[q].done <= s'.secrets.Keys {
      if By(e) == Some(q) && q in s.procs {
        assert Typed(cfg, s.procs[q]);
      }
    }
  }

  lemma StepKeepsOrdered(cfg: Config, s: Sys, e: Event)
    requires TwoLevel(cfg.tree)
    requires Ordered(cfg, s.secrets.Keys) && Informed(s) && AllTyped(cfg, s) && Enabled(cfg, s, e)
    ensures Ordered(cfg, Apply(cfg, s, e).secrets.Keys)
  {
    hide Apply;
    StoredAfter(cfg, s, e);
    if e.SecretCreated? {
      var pr, t := s.procs[e.p], Current(s, e.p);
      assert Typed(cfg, pr) && Allowed(cfg, pr.actor, t, pr.done, pr.keys.Keys);
      assert forall c, l | c in cfg.tree && l in cfg.tree[c] :: l in LeafNames(cfg.tree);
    }
  }

  lemma StoredAfter(cfg: Config, s: Sys, e: Event)
    requires Enabled(cfg, s, e)
    ensures Apply(cfg, s, e).secrets.Keys
         == s.secrets.Keys + if e.SecretCreated? then {NameOf(Current(s, e.p))} else {}
  {
  }

  // --- Keys and signers -----------------------------------------------------------------------------------

  predicate IssuedBy(issued: map<Key, Issue>, k: Key, p: Pid, name: string) {
    k in issued && issued[k] == Issue(p, name)
  }

  predicate Holds(procs: map<Pid, Proc>, p: Pid, name: string, k: Key) {
    p in procs && name in procs[p].keys && procs[p].keys[name] == k
  }

  // A reconcile still holds every CA key it ever generated, so it generated at most one for each CA.
  ghost predicate KeysHeld(tree: map<string, set<string>>, procs: map<Pid, Proc>, issued: map<Key, Issue>, next: Key) {
    && (forall k | k in issued :: k < next)
    && (forall p, c | p in procs && c in procs[p].keys :: IssuedBy(issued, procs[p].keys[c], p, c))
    && (forall k | k in issued && issued[k].name in tree :: Holds(procs, issued[k].pid, issued[k].name, k))
  }

  // The key in a stored secret was drawn for that very secret by the reconcile that stored it; so was, for the CA,
  // the key that signed a stored leaf. A CA signs itself.
  ghost predicate SecretsTraced(tree: map<string, set<string>>, secrets: map<string, Secret>,
                                writtenBy: map<string, Pid>, issued: map<Key, Issue>)
  {
    && secrets.Keys == writtenBy.Keys
    && (forall n | n in secrets :: IssuedBy(issued, secrets[n].key, writtenBy[n], n))
    && (forall c | c in tree && c in secrets :: secrets[c].signer == secrets[c].key)
    && (forall c, l | c in tree && l in tree[c] && l in secrets ::
          IssuedBy(issued, secrets[l].signer, writtenBy[l], c))
  }

  ghost predicate KeysTraced(cfg: Config, s: Sys) {
    && KeysHeld(cfg.tree, s.procs, s.issued, s.nextKey)
    && SecretsTraced(cfg.tree, s.secrets, s.writtenBy, s.issued)
  }

  // A reconcile's keys change only when it generates one.
  lemma KeysFrame(cfg: Config, s: Sys, e: Event, q: Pid)
    requires Enabled(cfg, s, e) && q in Apply(cfg, s, e).procs
    ensures q !in s.procs ==> Apply(cfg, s, e).procs[q].keys == map[]
    ensures e.CAGenerated? && e.p == q ==>
              Apply(cfg, s, e).procs[q].keys == s.procs[q].keys[s.procs[q].todo[0].ca := s.nextKey]
    ensures q in s.procs && !(e.CAGenerated? && e.p == q) ==> Apply(cfg, s, e).procs[q].keys == s.procs[q].keys
  {
  }

  lemma StepKeepsKeysHeld(cfg: Config, s: Sys, e: Event)
    requires TwoLevel(cfg.tree)
    requires KeysTraced(cfg, s) && AllTyped(cfg, s) && Enabled(cfg, s, e)
    ensures var s' := Apply(cfg, s, e); KeysHeld(cfg.tree, s'.procs, s'.issued, s'.nextKey)
  {
    var s' := Apply(cfg, s, e);
    var procs, procs', issued, issued', next, next' := s.procs, s'.procs, s.issued, s'.issued, s.nextKey, s'.nextKey;
    assert procs.Keys <= procs'.Keys;
    assert next !in issued;
    forall q | q in procs' ensures q !in procs ==> procs'[q].keys == map[] {
      KeysFrame(cfg, s, e, q);
    }
    if e.CAGenerated? {
      var ca := procs[e.p].todo[0].ca;
      assert Typed(cfg, procs[e.p]) && ca !in procs[e.p].keys;
      assert issued' == issued[next := Issue(e.p, ca)] && next' == next + 1;
      forall q | q in procs ensures procs'[q].keys == if q == e.p then procs[q].keys[ca := next] else procs[q].keys {
        KeysFrame(cfg, s, e, q);
      }
      GeneratedKeyHeld(cfg.tree, procs, procs', issued, next, e.p, ca);
    } else {
      forall q | q in procs ensures procs'[q].keys == procs[q].keys {
        KeysFrame(cfg, s, e, q);
      }
      if DrawsKey(s, e) {
        assert Typed(cfg, procs[e.p]);
        assert Allowed(cfg, procs[e.p].actor, Current(s, e.p), procs[e.p].done, procs[e.p].keys.Keys);
        assert forall c, l | c in cfg.tree && l in cfg.tree[c] :: l in LeafNames(cfg.tree);
        assert issued' == issued[next := Issue(e.p, KeyName(s, e))];
        assert KeyName(s, e) !in cfg.tree;
      }
      SameKeysHeld(cfg.tree, procs, procs', issued, issued', next, next');
    }
  }

  lemma GeneratedKeyHeld(tree: map<string, set<string>>, procs: map<Pid, Proc>, procs': map<Pid, Proc>,
                         issued: map<Key, Issue>, next: Key, p: Pid, ca: string)
    requires KeysHeld(tree, procs, issued, next)
    requires p in procs && ca !in procs[p].keys && procs'.Keys == procs.Keys
    requires forall q | q in procs :: procs'[q].keys == if q == p then procs[q].keys[ca := next] else procs[q].keys
    ensures KeysHeld(tree, procs', issued[next := Issue(p, ca)], next + 1)
  {
    var issued' := issued[next := Issue(p, ca)];
    forall k | k in issued' && issued'[k].name in tree ensures Holds(procs', issued'[k].pid, issued'[k].name, k) {
      if k != next {
        assert Holds(procs, issued[k].pid, issued[k].name, k);
      }
    }
    forall q, c | q in procs' && c in procs'[q].keys ensures IssuedBy(issued', procs'[q].keys[c], q, c) {
      if q != p || c != ca {
        assert IssuedBy(issued, procs[q].keys[c], q, c);
      }
    }
  }

  lemma SameKeysHeld(tree: map<string, set<string>>, procs: map<Pid, Proc>, procs': map<Pid, Proc>,
                     issued: map<Key, Issue>, issued': map<Key, Issue>, next: Key, next': Key)
    requires KeysHeld(tree, procs, issued, next)
    requires procs.Keys <= procs'.Keys
    requires forall q | q in procs' :: procs'[q].keys == if q in procs then procs[q].keys else map[]
    requires (issued' == issued && next' == next) ||
             (next' == next + 1 && exists i: Issue | i.name !in tree :: issued' == issued[next := i])
    ensures KeysHeld(tree, procs', issued', next')
  {
    forall k | k in issued' && issued'[k].name in tree ensures Holds(procs', issued'[k].pid, issued'[k].name, k) {
      assert k in issued && issued'[k] == issued[k];
      assert Holds(procs, issued[k].pid, issued[k].name, k);
    }
    forall q, c | q in procs' && c in procs'[q].keys ensures IssuedBy(issued', procs'[q].keys[c], q, c) {
      assert IssuedBy(issued, procs[q].keys[c], q, c);
    }
  }

  lemma StepKeepsSecretsTraced(cfg: Config, s: Sys, e: Event)
    requires TwoLevel(cfg.tree)
    requires KeysTraced(cfg, s) && AllTyped(cfg, s) && Enabled(cfg, s, e)
    ensures var s' := Apply(cfg, s, e); SecretsTraced(cfg.tree, s'.secrets, s'.writtenBy, s'.issued)
  {
    var s' := Apply(cfg, s, e);
    assert forall k | k in s.issued :: k in s'.issued && s'.issued[k] == s.issued[k];
    if e.SecretCreated? {
      var pr, t := s.procs[e.p], Current(s, e.p);
      assert Typed(cfg, pr) && Allowed(cfg, pr.actor, t, pr.done, pr.keys.Keys);
      if !t.PutCA? {
        OtherNamesAreNoCAs(cfg, t);
      }
      NewSecretTraced(cfg.tree, s.secrets, s.writtenBy, s'.issued, t, pr.keys, s.nextKey,
                      PutNames(cfg.lib, t, pr.actor), e.p);
    } else {
      assert s'.secrets == s.secrets && s'.writtenBy == s.writtenBy;
    }
  }

  lemma OtherNamesAreNoCAs(cfg: Config, t: Task)
    requires TwoLevel(cfg.tree) && IsPut(t) && !t.PutCA?
    requires t.PutLeaf? ==> t.ca in cfg.tree && t.leaf in cfg.tree[t.ca]
    ensures NameOf(t) !in cfg.tree
  {
    assert forall c, l | c in cfg.tree && l in cfg.tree[c] :: l in LeafNames(cfg.tree);
  }

  lemma NewSecretTraced(tree: map<string, set<string>>, secrets: map<string, Secret>, writtenBy: map<string, Pid>,
                        issued: map<Key, Issue>, t: Task, keys: map<string, Key>, drawn: Key, names: AltNames,
                        p: Pid)
    requires TwoLevel(tree) && SecretsTraced(tree, secrets, writtenBy, issued)
    requires IsPut(t) && HoldsKey(t, keys)
    requires t.PutCA? || t.PutLeaf? ==> t.ca in tree && IssuedBy(issued, keys[t.ca], p, t.ca)
    requires t.PutLeaf? ==> t.leaf in tree[t.ca]
    requires !t.PutCA? ==> NameOf(t) !in tree && IssuedBy(issued, drawn, p, NameOf(t))
    ensures SecretsTraced(tree, secrets[NameOf(t) := Content(t, keys, drawn, names)], writtenBy[NameOf(t) := p], issued)
  {
    var name := NameOf(t);
    var secrets', writtenBy' := secrets[name := Content(t, keys, drawn, names)], writtenBy[name := p];
    assert forall c, l | c in tree && l in tree[c] :: l in LeafNames(tree);
    forall c, l | c in tree && l in tree[c] && l in secrets'
      ensures IssuedBy(issued, secrets'[l].signer, writtenBy'[l], c)
    {
      if l == name {
        assert l in LeafNames(tree);
        assert t.PutLeaf? && t.ca == c;
      }
    }
    forall c | c in tree && c in secrets' ensures secrets'[c].signer == secrets'[c].key {
      if c == name {
        assert t.PutCA?;
      }
    }
  }

  // --- Machines, pods and the service ---------------------------------------------------------------------

  // A mounted name is the full name of a secret of the cluster.
  ghost predicate Mounts(cfg: Config, stored: set<string>, mounts: seq<string>) {
    forall m | m in mounts :: exists n | n in stored :: m == SecretName(cfg.cluster, n)
  }

  ghost predicate TemplatesMountSecrets(cfg: Config) {
    forall t | t in cfg.table :: Mounts(cfg, AllNames(cfg.tree), cfg.table[t].mounts)
  }

  // Control planes only run once the cluster was ready, and machine reconciles only for machines that exist.
  ghost predicate ProcsGated(s: Sys) {
    && (forall p | p in s.procs && IsControlPlane(s, p) :: s.procs[p].actor.spec in s.everOpen)
    && (forall p | p in s.procs && IsMachine(s, p) :: s.procs[p].actor.uid in s.born)
  }

  // Any machine the control plane ever created came after all secrets, and after the cluster was ready.
  ghost predicate MachinesLate(cfg: Config, s: Sys) {
    && (forall m | m in s.born :: m < s.nextUid)
    && (forall m | m in s.born && s.born[m] == cfg.kcp :: AllNames(cfg.tree) <= s.secrets.Keys && s.everOpen != {})
    && (forall m | m in s.machines :: m in s.born && s.machines[m].controller == s.born[m])
    && (forall m | m in s.machines && s.machines[m].ready :: m in s.everReady)
  }

  ghost predicate PodsBelong(cfg: Config, s: Sys) {
    && (forall u | u in s.pods :: u < s.nextUid)
    && (forall u | u in s.pods && s.pods[u].owner.Some? ::
          s.pods[u].owner.value in s.born && Mounts(cfg, AllNames(cfg.tree), s.pods[u].mounts))
  }

  // Which reconcile a process is never changes; a new one starts behind its gate.
  lemma ActorFrame(cfg: Config, s: Sys, e: Event, q: Pid)
    requires Enabled(cfg, s, e) && q in Apply(cfg, s, e).procs
    ensures q in s.procs ==> Apply(cfg, s, e).procs[q].actor == s.procs[q].actor
    ensures q !in s.procs ==>
              if IsControlPlane(Apply(cfg, s, e), q) then Apply(cfg, s, e).procs[q].actor.spec in s.everOpen
              else Apply(cfg, s, e).procs[q].actor.uid in s.born
  {
  }

  lemma ActorKept(cfg: Config, s: Sys, e: Event, p: Pid)
    requires p in s.procs
    ensures p in Next(cfg, s, e).procs && Next(cfg, s, e).procs[p].actor == s.procs[p].actor
  {
  }

  lemma StepKeepsGated(cfg: Config, s: Sys, e: Event)
    requires ProcsGated(s) && MachinesLate(cfg, s) && Enabled(cfg, s, e)
    ensures ProcsGated(Apply(cfg, s, e))
  {
    var s' := Apply(cfg, s, e);
    assert s.born.Keys <= s'.born.Keys && s.everOpen <= s'.everOpen;
    forall q | q in s'.procs
      ensures IsControlPlane(s', q) ==> s'.procs[q].actor.spec in s'.everOpen
      ensures IsMachine(s', q) ==> s'.procs[q].actor.uid in s'.born
    {
      hide Enabled, MachinesLate;
      ActorFrame(cfg, s, e, q);
    }
  }

  lemma StepKeepsMachinesLate(cfg: Config, s: Sys, e: Event)
    requires MachinesLate(cfg, s) && ProcsGated(s) && Informed(s) && AllTyped(cfg, s) && Enabled(cfg, s, e)
    ensures MachinesLate(cfg, Apply(cfg, s, e))
  {
    hide Apply, Informed, ProcsGated, AllTyped, AllNames;
    StoredAfter(cfg, s, e);
    MachineFields(cfg, s, e);
    if e.MachineAdded? {
      AdderKnowsSecrets(cfg, s, e.p);
    }
  }

  lemma MachineFields(cfg: Config, s: Sys, e: Event)
    requires Enabled(cfg, s, e)
    ensures var t := Apply(cfg, s, e);
            && t.machines == MachinesAfter(cfg, s, e) && t.born == BornAfter(cfg, s, e)
            && t.nextUid == s.nextUid + (if DrawsUid(e) then 1 else 0)
            && s.everOpen <= t.everOpen && s.everReady <= t.everReady
            && (e.MachineWritten? && Current(s, e.p).ready ==> s.procs[e.p].actor.uid in t.everReady)
  {
  }

  lemma AdderKnowsSecrets(cfg: Config, s: Sys, p: Pid)
    requires AllTyped(cfg, s) && Informed(s) && ProcsGated(s) && At(s, p) && Current(s, p).AddMachine?
    ensures AllNames(cfg.tree) <= s.secrets.Keys && s.everOpen != {}
  {
    var pr := s.procs[p];
    assert Typed(cfg, pr) && Allowed(cfg, pr.actor, AddMachine, pr.done, pr.keys.Keys);
    assert IsControlPlane(s, p);
  }

  lemma StepKeepsPodsBelong(cfg: Config, s: Sys, e: Event)
    requires TemplatesMountSecrets(cfg)
    requires PodsBelong(cfg, s) && MachinesLate(cfg, s) && ProcsGated(s) && Enabled(cfg, s, e)
    ensures PodsBelong(cfg, Apply(cfg, s, e))
  {
    var s' := Apply(cfg, s, e);
    assert forall m | m in s.born :: m in s'.born;
  }

  // The only service the reconciles make is the etcd service of the cluster.
  ghost predicate OneService(cfg: Config, s: Sys) {
    && s.services.Keys <= {EtcdServiceName(cfg.cluster)}
    && (forall n | n in s.services ::
          s.services[n].owner in s.born && s.services[n] == EtcdService(cfg.cluster, s.services[n].owner))
  }

  lemma StepKeepsOneService(cfg: Config, s: Sys, e: Event)
    requires OneService(cfg, s) && ProcsGated(s) && MachinesLate(cfg, s) && Enabled(cfg, s, e)
    ensures OneService(cfg, Apply(cfg, s, e))
  {
    var s' := Apply(cfg, s, e);
    assert forall m | m in s.born :: m in s'.born;
  }

  // --- All of it, at the end of any log -------------------------------------------------------------------

  ghost predicate Safe(cfg: Config, s: Sys) {
    && AllTyped(cfg, s) && Informed(s) && Ordered(cfg, s.secrets.Keys) && KeysTraced(cfg, s)
    && ProcsGated(s) && MachinesLate(cfg, s) && PodsBelong(cfg, s) && OneService(cfg, s)
  }

  ghost predicate WellFormed(cfg: Config) {
    TwoLevel(cfg.tree) && TemplatesMountSecrets(cfg)
  }

  lemma NextKeepsSafe(cfg: Config, s: Sys, e: Event)
    requires WellFormed(cfg) && Safe(cfg, s)
    ensures Safe(cfg, Next(cfg, s, e))
  {
    if Enabled(cfg, s, e) {
      StepKeepsTyped(cfg, s, e);
      StepKeepsInformed(cfg, s, e);
      StepKeepsOrdered(cfg, s, e);
      StepKeepsKeysHeld(cfg, s, e);
      StepKeepsSecretsTraced(cfg, s, e);
      StepKeepsGated(cfg, s, e);
      StepKeepsMachinesLate(cfg, s, e);
      StepKeepsPodsBelong(cfg, s, e);
      StepKeepsOneService(cfg, s, e);
    }
  }

  lemma {:induction false} RunKeepsSafe(cfg: Config, s: Sys, log: seq<Event>)
    requires WellFormed(cfg) && Safe(cfg, s)
    ensures Safe(cfg, Run(cfg, s, log))
  {
    if log != [] {
      RunKeepsSafe(cfg, s, log[..|log| - 1]);
      NextKeepsSafe(cfg, Run(cfg, s, log[..|log| - 1]), log[|log| - 1]);
    }
  }

  // A cluster that is ready has been ready, and then it had a host and a port.
  lemma {:induction false} OpenWasOpen(cfg: Config, log: seq<Event>)
    ensures var s := Run(cfg, InitialState(), log);
            && (s.open.Some? ==> s.open.value in s.everOpen)
            && forall c | c in s.everOpen :: c.host != "" && c.port != 0
  {
    if log != [] {
      OpenWasOpen(cfg, log[..|log| - 1]);
    }
  }

  lemma EveryRunIsSafe(cfg: Config, log: seq<Event>)
    requires WellFormed(cfg)
    ensures Safe(cfg, Run(cfg, InitialState(), log))
  {
    RunKeepsSafe(cfg, InitialState(), log);
  }
}
