/** Task lists that do things in the right order.

    A task list is sound for what its reconcile knows when every task finds what it relies on: a leaf finds
    the CA key of this very reconcile and the CA secret, the service-account key finds the whole tree, a new
    machine finds all secrets, a readiness check finds a pod for every role. Soundness is local to one
    reconcile, and every event keeps it. */
module Typing {
  import opened Collections
  import opened Int32
  import opened Protocol

  // What a task relies on. `done` is what the reconcile knows to exist, `keys` the CAs it has keys for.
  predicate Allowed(cfg: Config, a: Actor, t: Task, done: set<string>, keys: set<string>) {
    match t
    case NewCA(c) => a.ControlPlaneActor? && c in cfg.tree && c !in keys
    case PutCA(c) => a.ControlPlaneActor? && c in cfg.tree && c in keys
    case PutLeaf(l, c) => a.ControlPlaneActor? && c in cfg.tree && l in cfg.tree[c] && c in keys && c in done
    case PutSA => a.ControlPlaneActor? && TreeNames(cfg.tree) <= done
    case PutKubeconfig => a.ControlPlaneActor? && TreeNames(cfg.tree) + {SA} <= done
    case ListMachines => a.ControlPlaneActor? && AllNames(cfg.tree) <= done
    case AddMachine => a.ControlPlaneActor? && AllNames(cfg.tree) <= done
    case DropMachine(_) => a.ControlPlaneActor?
    case IndexPanic => a.ControlPlaneActor?
    case CountMachines => a.ControlPlaneActor?
    case WriteControlPlane(_) => a.ControlPlaneActor?
    case ListPods => a.MachineActor?
    case MakePod(t) => a.MachineActor? && t in cfg.table
    case ListServices => a.MachineActor?
    case MakeService => a.MachineActor?
    case CheckPods => a.MachineActor? && cfg.table.Keys <= done
    case WriteMachine(_) => a.MachineActor?
  }

  // What is known to exist once a task, and everything it unfolds to, is behind.
  function Learnt(cfg: Config, t: Task): set<string> {
    if IsPut(t) then {NameOf(t)}
    else if t.ListPods? then cfg.table.Keys
    else if t.MakePod? then {t.role}
    else {}
  }

  function Drawn(t: Task): set<string> {
    if t.NewCA? then {t.ca} else {}
  }

  ghost predicate Sound(cfg: Config, a: Actor, todo: seq<Task>, done: set<string>, keys: set<string>) {
    todo == [] ||
    (Allowed(cfg, a, todo[0], done, keys) &&
     Sound(cfg, a, todo[1..], done + Learnt(cfg, todo[0]), keys + Drawn(todo[0])))
  }

  ghost predicate Typed(cfg: Config, pr: Proc) {
    && (pr.actor.MachineActor? ==> IsRoleOrder(cfg.table, pr.actor.order))
    && Sound(cfg, pr.actor, pr.todo, pr.done, pr.keys.Keys)
  }

  lemma SoundCons(cfg: Config, a: Actor, t: Task, rest: seq<Task>, done: set<string>, keys: set<string>)
    requires Allowed(cfg, a, t, done, keys)
    requires Sound(cfg, a, rest, done + Learnt(cfg, t), keys + Drawn(t))
    ensures Sound(cfg, a, [t] + rest, done, keys)
  {
    assert ([t] + rest)[1..] == rest;
  }

  // One more task ahead of what was left, relying on nothing and teaching nothing.
  lemma MorePlain(cfg: Config, a: Actor, t: Task, rest: seq<Task>, done: set<string>, keys: set<string>)
    requires Allowed(cfg, a, t, done, keys) && Learnt(cfg, t) == {} && Drawn(t) == {}
    requires Sound(cfg, a, rest, done, keys)
    ensures Sound(cfg, a, [t] + rest, done, keys)
  {
    assert done + {} == done && keys + {} == keys;
    SoundCons(cfg, a, t, rest, done, keys);
  }

  // Knowing more never hurts.
  lemma {:induction false} SoundMonotone(cfg: Config, a: Actor, todo: seq<Task>, done: set<string>,
                                         more: set<string>, keys: set<string>)
    requires Sound(cfg, a, todo, done, keys)
    requires done <= more
    ensures Sound(cfg, a, todo, more, keys)
  {
    if todo != [] {
      var known := Learnt(cfg, todo[0]);
      SoundMonotone(cfg, a, todo[1..], done + known, more + known, keys + Drawn(todo[0]));
    }
  }

  // --- The control-plane program --------------------------------------------------------------------------

  lemma {:induction false} LeavesSound(cfg: Config, a: Actor, c: string, leaves: seq<string>, rest: seq<Task>,
                                       done: set<string>, keys: set<string>)
    requires a.ControlPlaneActor?
    requires c in cfg.tree && c in keys && c in done && SetOf(leaves) <= cfg.tree[c]
    requires Sound(cfg, a, rest, done + SetOf(leaves), keys)
    ensures Sound(cfg, a, LeafTasks(c, leaves) + rest, done, keys)
  {
    hide Sound;
    if leaves == [] {
      assert done + SetOf(leaves) == done;
      assert LeafTasks(c, leaves) + rest == rest;
    } else {
      var t := PutLeaf(leaves[0], c);
      assert SetOf(leaves) == {leaves[0]} + SetOf(leaves[1..]);
      assert leaves[0] in cfg.tree[c];
      assert done + {leaves[0]} + SetOf(leaves[1..]) == done + SetOf(leaves);
      assert keys + Drawn(t) == keys;
      LeavesSound(cfg, a, c, leaves[1..], rest, done + {leaves[0]}, keys);
      SoundCons(cfg, a, t, LeafTasks(c, leaves[1..]) + rest, done, keys);
      assert LeafTasks(c, leaves) + rest == [t] + (LeafTasks(c, leaves[1..]) + rest);
    }
  }

  // The names a list of blocks writes.
  function BlockNames(order: seq<Block>): set<string> {
    if order == [] then {} else {order[0].ca} + SetOf(order[0].leaves) + BlockNames(order[1..])
  }

  function BlockCAs(order: seq<Block>): set<string> {
    if order == [] then {} else {order[0].ca} + BlockCAs(order[1..])
  }

  ghost predicate FitsTree(tree: map<string, set<string>>, order: seq<Block>) {
    && (forall b | b in order :: b.ca in tree && SetOf(b.leaves) == tree[b.ca])
    && (forall i, j | 0 <= i < j < |order| :: order[i].ca != order[j].ca)
  }

  lemma BlockSound(cfg: Config, a: Actor, b: Block, rest: seq<Task>, done: set<string>, keys: set<string>)
    requires a.ControlPlaneActor?
    requires b.ca in cfg.tree && SetOf(b.leaves) == cfg.tree[b.ca] && b.ca !in keys
    requires Sound(cfg, a, rest, done + {b.ca} + SetOf(b.leaves), keys + {b.ca})
    ensures Sound(cfg, a, [NewCA(b.ca), PutCA(b.ca)] + LeafTasks(b.ca, b.leaves) + rest, done, keys)
  {
    hide Sound;
    var leaves := LeafTasks(b.ca, b.leaves) + rest;
    LeavesSound(cfg, a, b.ca, b.leaves, rest, done + {b.ca}, keys + {b.ca});
    assert keys + {b.ca} + Drawn(PutCA(b.ca)) == keys + {b.ca};
    SoundCons(cfg, a, PutCA(b.ca), leaves, done, keys + {b.ca});
    assert done + Learnt(cfg, NewCA(b.ca)) == done;
    SoundCons(cfg, a, NewCA(b.ca), [PutCA(b.ca)] + leaves, done, keys);
    assert [NewCA(b.ca), PutCA(b.ca)] + LeafTasks(b.ca, b.leaves) + rest == [NewCA(b.ca)] + ([PutCA(b.ca)] + leaves);
  }

  lemma TailFits(tree: map<string, set<string>>, order: seq<Block>, keys: set<string>)
    requires order != [] && FitsTree(tree, order) && forall b | b in order :: b.ca !in keys
    ensures FitsTree(tree, order[1..]) && forall b | b in order[1..] :: b.ca !in keys + {order[0].ca}
  {
    forall b | b in order[1..] ensures b in order && b.ca != order[0].ca {
      var i :| 0 <= i < |order| - 1 && order[1..][i] == b;
      assert order[0].ca != order[i + 1].ca;
    }
  }

  lemma {:induction false} TreeSound(cfg: Config, a: Actor, order: seq<Block>, rest: seq<Task>,
                                     done: set<string>, keys: set<string>)
    requires a.ControlPlaneActor? && FitsTree(cfg.tree, order)
    requires forall b | b in order :: b.ca !in keys
    requires Sound(cfg, a, rest, done + BlockNames(order), keys + BlockCAs(order))
    ensures Sound(cfg, a, TreeTasks(order) + rest, done, keys)
  {
    hide Sound;
    if order == [] {
      assert done + BlockNames(order) == done && keys + BlockCAs(order) == keys;
      assert TreeTasks(order) + rest == rest;
    } else {
      var b, tail := order[0], order[1..];
      assert b in order;
      TailFits(cfg.tree, order, keys);
      assert done + {b.ca} + SetOf(b.leaves) + BlockNames(tail) == done + BlockNames(order);
      assert keys + {b.ca} + BlockCAs(tail) == keys + BlockCAs(order);
      TreeSound(cfg, a, tail, rest, done + {b.ca} + SetOf(b.leaves), keys + {b.ca});
      BlockSound(cfg, a, b, TreeTasks(tail) + rest, done, keys);
      assert TreeTasks(order) + rest
          == [NewCA(b.ca), PutCA(b.ca)] + LeafTasks(b.ca, b.leaves) + (TreeTasks(tail) + rest);
    }
  }

  lemma {:induction false} BlockNamesContain(order: seq<Block>, b: Block)
    requires b in order
    ensures b.ca in BlockNames(order) && SetOf(b.leaves) <= BlockNames(order)
  {
    if b != order[0] {
      BlockNamesContain(order[1..], b);
    }
  }

  lemma OrderCoversTree(tree: map<string, set<string>>, order: seq<Block>)
    requires IsOrderOf(tree, order)
    ensures TreeNames(tree) <= BlockNames(order)
  {
    forall n | n in TreeNames(tree) ensures n in BlockNames(order) {
      if n in tree {
        var b :| b in order && b.ca == n;
        BlockNamesContain(order, b);
      } else {
        var c :| c in tree && n in tree[c];
        var b :| b in order && b.ca == c;
        assert n in SetOf(b.leaves);
        BlockNamesContain(order, b);
      }
    }
  }

  /** Whatever order the maps are iterated in, the control-plane program is sound from an empty start. */
  lemma ControlPlaneProgramSound(cfg: Config, a: Actor, order: seq<Block>)
    requires a.ControlPlaneActor? && IsOrderOf(cfg.tree, order)
    ensures Sound(cfg, a, ControlPlaneTasks(order), {}, {})
  {
    hide Sound;
    var names, keys := {} + BlockNames(order), {} + BlockCAs(order);
    OrderCoversTree(cfg.tree, order);
    var all := names + {SA} + {KUBECONFIG};
    assert all + {} == all && keys + {} == keys;
    SoundCons(cfg, a, CountMachines, [], all, keys);
    SoundCons(cfg, a, ListMachines, [CountMachines] + [], all, keys);
    SoundCons(cfg, a, PutKubeconfig, [ListMachines] + ([CountMachines] + []), names + {SA}, keys);
    SoundCons(cfg, a, PutSA, [PutKubeconfig] + ([ListMachines] + ([CountMachines] + [])), names, keys);
    var tail := [PutSA, PutKubeconfig, ListMachines, CountMachines];
    assert tail == [PutSA] + ([PutKubeconfig] + ([ListMachines] + ([CountMachines] + [])));
    TreeSound(cfg, a, order, tail, {}, {});
  }

  lemma {:induction false} AddsSound(cfg: Config, a: Actor, n: nat, rest: seq<Task>, done: set<string>,
                                     keys: set<string>)
    requires a.ControlPlaneActor? && AllNames(cfg.tree) <= done && Sound(cfg, a, rest, done, keys)
    ensures Sound(cfg, a, AddTasks(n) + rest, done, keys)
  {
    hide Sound;
    if n == 0 {
      assert AddTasks(n) + rest == rest;
    } else {
      AddsSound(cfg, a, n - 1, rest, done, keys);
      MorePlain(cfg, a, AddMachine, AddTasks(n - 1) + rest, done, keys);
      assert AddTasks(n) + rest == [AddMachine] + (AddTasks(n - 1) + rest);
    }
  }

  lemma DropTasksUnfold(items: seq<MachineItem>, n: nat, rest: seq<Task>)
    ensures n == 0 ==> DropTasks(items, n) + rest == rest
    ensures n > 0 && items == [] ==> DropTasks(items, n) + rest == [IndexPanic] + rest
    ensures n > 0 && items != [] ==> (
              var fewer := items[..|items| - 1];
              DropTasks(items, n) + rest == [DropMachine(items[|fewer|].uid)] + (DropTasks(fewer, n - 1) + rest))
  {
  }

  lemma {:induction false} DropsSound(cfg: Config, a: Actor, items: seq<MachineItem>, n: nat, rest: seq<Task>,
                                      done: set<string>, keys: set<string>)
    requires a.ControlPlaneActor? && Sound(cfg, a, rest, done, keys)
    ensures Sound(cfg, a, DropTasks(items, n) + rest, done, keys)
  {
    hide Sound, DropTasks;
    DropTasksUnfold(items, n, rest);
    if n > 0 && items == [] {
      MorePlain(cfg, a, IndexPanic, rest, done, keys);
    } else if n > 0 {
      var t, fewer := DropMachine(items[|items| - 1].uid), items[..|items| - 1];
      DropsSound(cfg, a, fewer, n - 1, rest, done, keys);
      MorePlain(cfg, a, t, DropTasks(fewer, n - 1) + rest, done, keys);
    }
  }

  lemma ScaleSound(cfg: Config, a: Actor, items: seq<MachineItem>, rest: seq<Task>, done: set<string>,
                   keys: set<string>)
    requires a.ControlPlaneActor? && AllNames(cfg.tree) <= done && Sound(cfg, a, rest, done, keys)
    ensures Sound(cfg, a, ScaleTasks(items, a.replicas) + rest, done, keys)
  {
    hide Sound;
    var listed := Narrow(|items|);
    if listed < a.replicas {
      AddsSound(cfg, a, a.replicas - listed, rest, done, keys);
    } else {
      DropsSound(cfg, a, items, listed - a.replicas, rest, done, keys);
    }
  }

  // --- The machine program --------------------------------------------------------------------------------

  lemma MakeTasksUnfold(order: seq<string>, found: set<string>, rest: seq<Task>)
    ensures order == [] ==> MakeTasks(order, found) + rest == rest
    ensures order != [] && order[0] in found ==> MakeTasks(order, found) + rest == MakeTasks(order[1..], found) + rest
    ensures order != [] && order[0] !in found ==>
              MakeTasks(order, found) + rest == [MakePod(order[0])] + (MakeTasks(order[1..], found) + rest)
  {
    if order != [] && order[0] in found {
      assert [] + MakeTasks(order[1..], found) == MakeTasks(order[1..], found);
    }
  }

  lemma RolesUnfold(order: seq<string>, done: set<string>)
    ensures order == [] ==> done + SetOf(order) == done
    ensures order != [] ==> (
              && order[0] in SetOf(order) && SetOf(order[1..]) <= SetOf(order)
              && done + {order[0]} + SetOf(order[1..]) == done + SetOf(order)
              && (order[0] in done ==> done + SetOf(order[1..]) == done + SetOf(order)))
  {
    if order != [] {
      assert SetOf(order) == {order[0]} + SetOf(order[1..]);
    }
  }

  lemma {:induction false} MakesSound(cfg: Config, a: Actor, order: seq<string>, found: set<string>,
                                      rest: seq<Task>, done: set<string>, keys: set<string>)
    requires a.MachineActor? && SetOf(order) <= cfg.table.Keys
    requires found <= done
    requires Sound(cfg, a, rest, done + SetOf(order), keys)
    ensures Sound(cfg, a, MakeTasks(order, found) + rest, done, keys)
  {
    hide Sound, MakeTasks, SetOf;
    MakeTasksUnfold(order, found, rest);
    RolesUnfold(order, done);
    if order != [] {
      var r, tail := order[0], order[1..];
      if r in found {
        MakesSound(cfg, a, tail, found, rest, done, keys);
      } else {
        MakesSound(cfg, a, tail, found, rest, done + {r}, keys);
        assert keys + {} == keys;
        SoundCons(cfg, a, MakePod(r), MakeTasks(tail, found) + rest, done, keys);
      }
    }
  }

  lemma MachineProgramSound(cfg: Config, a: Actor)
    requires a.MachineActor?
    ensures Sound(cfg, a, MachineTasks(), {}, {})
  {
    var roles: set<string> := {} + cfg.table.Keys;
    assert roles + {} == roles;
    assert Drawn(CheckPods) == Drawn(ListServices) == Drawn(ListPods) == {};
    SoundCons(cfg, a, CheckPods, [], roles, {} + {} + {});
    SoundCons(cfg, a, ListServices, [CheckPods] + [], roles, {} + {});
    SoundCons(cfg, a, ListPods, [ListServices] + ([CheckPods] + []), {}, {});
    assert MachineTasks() == [ListPods] + ([ListServices] + ([CheckPods] + []));
  }

  // --- Every event keeps every reconcile sound ------------------------------------------------------------

  lemma UnfoldingSound(cfg: Config, s: Sys, e: Event, rest: seq<Task>)
    requires Enabled(cfg, s, e) && By(e).Some? && e.p in s.procs && !e.SecretMissing?
    requires Typed(cfg, s.procs[e.p]) && s.procs[e.p].todo != [] && rest == s.procs[e.p].todo[1..]
    ensures var pr := s.procs[e.p];
            Sound(cfg, pr.actor, Unfolded(cfg, s, e) + rest, pr.done + Taught(cfg, s, e),
                  pr.keys.Keys + Drawn(pr.todo[0]))
  {
    var pr := s.procs[e.p];
    var a, keys, more := pr.actor, pr.keys.Keys, Unfolded(cfg, s, e);
    var t := pr.todo[0];
    assert Allowed(cfg, a, t, pr.done, keys);
    assert Sound(cfg, a, rest, pr.done + Learnt(cfg, t), keys + Drawn(t));
    assert pr.done + {} == pr.done && keys + {} == keys;
    if e.PodsListed? {
      var found := OwnedRoles(s.pods, a.uid);
      SoundMonotone(cfg, a, rest, pr.done + cfg.table.Keys, pr.done + found + SetOf(a.order), keys);
      MakesSound(cfg, a, a.order, found, rest, pr.done + found, keys);
    } else if e.MachinesListed? {
      ScaleSound(cfg, a, e.items, rest, pr.done, keys);
    } else if more == [] {
      assert more + rest == rest;
    } else {
      assert more == [more[0]];
      MorePlain(cfg, a, more[0], rest, pr.done, keys);
    }
  }

  lemma ProcStaysTyped(cfg: Config, s: Sys, e: Event)
    requires Enabled(cfg, s, e) && By(e).Some? && e.p in s.procs && Typed(cfg, s.procs[e.p])
    ensures Typed(cfg, ProcAfter(cfg, s, e))
  {
    if !e.SecretMissing? {
      var pr := s.procs[e.p];
      UnfoldingSound(cfg, s, e, pr.todo[1..]);
      assert ProcAfter(cfg, s, e).keys.Keys == pr.keys.Keys + Drawn(pr.todo[0]);
    }
  }

  ghost predicate AllTyped(cfg: Config, s: Sys) {
    forall p | p in s.procs :: Typed(cfg, s.procs[p])
  }

  lemma StepKeepsTyped(cfg: Config, s: Sys, e: Event)
    requires AllTyped(cfg, s) && Enabled(cfg, s, e)
    ensures AllTyped(cfg, Apply(cfg, s, e))
  {
    var s' := Apply(cfg, s, e);
    forall q | q in s'.procs ensures Typed(cfg, s'.procs[q]) {
      if e.StartControlPlane? && q == e.p {
        assert s'.procs[q].keys.Keys == {};
        ControlPlaneProgramSound(cfg, s'.procs[q].actor, e.blocks);
      } else if e.StartMachine? && q == e.p {
        assert s'.procs[q].keys.Keys == {};
        MachineProgramSound(cfg, s'.procs[q].actor);
      } else if By(e) == Some(q) {
        ProcStaysTyped(cfg, s, e);
      } else {
        assert s'.procs[q] == s.procs[q];
      }
    }
  }
}
