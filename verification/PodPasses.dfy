/** What one pod-setup pass does to the stored pods, and what sequences of passes lead to: convergence for a
    table whose templates are labelled with their roles, and none for the shipped table. */
module PodPasses {
  import opened Collections
  import opened Protocol
  import opened Readiness

  type Table = map<string, PodTemplate>

  // The roles of an order for which no pod was found, in that order.
  function Missing(order: seq<string>, found: set<string>): seq<string> {
    if order == [] then []
    else
      var last := order[|order| - 1];
      Missing(order[..|order| - 1], found) + if last in found then [] else [last]
  }

  // The pods after creating one for each of `roles`, under new uids.
  function Plus(pods: map<Uid, Pod>, next: Uid, m: Uid, table: Table, roles: seq<string>): map<Uid, Pod>
    requires forall r | r in roles :: r in table
  {
    if roles == [] then pods
    else
      var n := |roles| - 1;
      Plus(pods, next, m, table, roles[..n])[next + n := FromTemplate(m, table[roles[n]])]
  }

  // One pass: it creates the missing roles in order, up to the first failure, and all of them if none fails.
  ghost predicate PodPass(before: map<Uid, Pod>, after: map<Uid, Pod>, next: Uid, m: Uid, table: Table,
                          order: seq<string>, made: seq<string>, all: bool)
  {
    var missing := Missing(order, OwnedRoles(before, m));
    && made <= missing
    && (all ==> made == missing)
    && (forall r | r in made :: r in table)
    && after == Plus(before, next, m, table, made)
  }

  predicate UidsBelow(pods: map<Uid, Pod>, next: Uid) {
    forall u | u in pods :: u < next
  }

  lemma {:induction false} MissingContent(order: seq<string>, found: set<string>)
    ensures forall r :: r in Missing(order, found) <==> r in order && r !in found
  {
    if order != [] {
      var rest, last := order[..|order| - 1], order[|order| - 1];
      MissingContent(rest, found);
      assert forall r :: r in order <==> r in rest || r == last;
    }
  }

  lemma {:induction false} MissingNoRepeats(order: seq<string>, found: set<string>)
    requires NoRepeats(order)
    ensures NoRepeats(Missing(order, found))
  {
    if order != [] {
      var rest, last := order[..|order| - 1], order[|order| - 1];
      MissingNoRepeats(rest, found);
      MissingContent(rest, found);
      assert last !in rest;
    }
  }

  // What is stored after a pass, pod by pod.
  lemma {:induction false} PlusContent(pods: map<Uid, Pod>, next: Uid, m: Uid, table: Table, roles: seq<string>)
    requires UidsBelow(pods, next) && forall r | r in roles :: r in table
    ensures var after := Plus(pods, next, m, table, roles);
            && UidsBelow(after, next + |roles|)
            && (forall u | u in pods :: u in after && after[u] == pods[u])
            && (forall i | 0 <= i < |roles| :: Made(after, next + i, m, table[roles[i]]))
            && (forall u | u in after && u !in pods :: next <= u < next + |roles|)
  {
    if roles != [] {
      var n := |roles| - 1;
      PlusContent(pods, next, m, table, roles[..n]);
      var before, after := Plus(pods, next, m, table, roles[..n]), Plus(pods, next, m, table, roles);
      assert after == before[next + n := FromTemplate(m, table[roles[n]])];
      forall i | 0 <= i < |roles| ensures Made(after, next + i, m, table[roles[i]]) {
        if i < n {
          assert roles[..n][i] == roles[i];
          assert Made(before, next + i, m, table[roles[..n][i]]);
        }
      }
    }
  }

  predicate Made(pods: map<Uid, Pod>, u: Uid, m: Uid, t: PodTemplate) {
    u in pods && pods[u] == FromTemplate(m, t)
  }

  // The roles a table's templates are labelled with, for a list of its keys.
  function LabelledAs(table: Table, roles: seq<string>): set<string>
    requires forall r | r in roles :: r in table
  {
    set r | r in roles && ROLE_LABEL in table[r].labels :: table[r].labels[ROLE_LABEL]
  }

  lemma RolesAfter(pods: map<Uid, Pod>, next: Uid, m: Uid, table: Table, roles: seq<string>)
    requires UidsBelow(pods, next) && forall r | r in roles :: r in table
    ensures OwnedRoles(Plus(pods, next, m, table, roles), m) == OwnedRoles(pods, m) + LabelledAs(table, roles)
  {
    hide OwnedRoles, LabelledAs, Plus;
    var after := Plus(pods, next, m, table, roles);
    forall role ensures role in OwnedRoles(after, m) <==> role in OwnedRoles(pods, m) + LabelledAs(table, roles) {
      if role in OwnedRoles(after, m) {
        RoleAfterIsOldOrMade(pods, next, m, table, roles, role);
      }
      if role in OwnedRoles(pods, m) + LabelledAs(table, roles) {
        OldAndMadeRolesStay(pods, next, m, table, roles, role);
      }
    }
  }

  lemma RoleAfterIsOldOrMade(pods: map<Uid, Pod>, next: Uid, m: Uid, table: Table, roles: seq<string>, role: string)
    requires UidsBelow(pods, next) && forall r | r in roles :: r in table
    requires role in OwnedRoles(Plus(pods, next, m, table, roles), m)
    ensures role in OwnedRoles(pods, m) || role in LabelledAs(table, roles)
  {
    hide Plus;
    var after := Plus(pods, next, m, table, roles);
    PlusContent(pods, next, m, table, roles);
    var u :| u in after && Owned(after[u], m) && ROLE_LABEL in after[u].labels && after[u].labels[ROLE_LABEL] == role;
    if u !in pods {
      var i := u - next;
      assert Made(after, next + i, m, table[roles[i]]);
      assert roles[i] in roles;
    }
  }

  lemma OldAndMadeRolesStay(pods: map<Uid, Pod>, next: Uid, m: Uid, table: Table, roles: seq<string>, role: string)
    requires UidsBelow(pods, next) && forall r | r in roles :: r in table
    requires role in OwnedRoles(pods, m) || role in LabelledAs(table, roles)
    ensures role in OwnedRoles(Plus(pods, next, m, table, roles), m)
  {
    hide Plus;
    var after := Plus(pods, next, m, table, roles);
    PlusContent(pods, next, m, table, roles);
    if role in OwnedRoles(pods, m) {
      var u :| u in pods && Owned(pods[u], m) && ROLE_LABEL in pods[u].labels && pods[u].labels[ROLE_LABEL] == role;
      assert u in after;
    } else {
      var r :| r in roles && ROLE_LABEL in table[r].labels && table[r].labels[ROLE_LABEL] == role;
      var i :| 0 <= i < |roles| && roles[i] == r;
      assert Made(after, next + i, m, table[roles[i]]);
    }
  }

  // --- A pass step by step ---------------------------------------------------------------------------------

  lemma MakesUnfold(order: seq<string>, found: set<string>, rest: seq<Task>, i: nat)
    requires i < |order|
    ensures order[i] in found ==> MakeTasks(order[i..], found) + rest == MakeTasks(order[i + 1..], found) + rest
    ensures order[i] !in found ==>
              MakeTasks(order[i..], found) + rest == [MakePod(order[i])] + (MakeTasks(order[i + 1..], found) + rest)
  {
    assert order[i..][0] == order[i] && order[i..][1..] == order[i + 1..];
    var more := MakeTasks(order[i + 1..], found);
    if order[i] in found {
      assert MakeTasks(order[i..], found) == [] + more == more;
    } else {
      assert MakeTasks(order[i..], found) == [MakePod(order[i])] + more;
      assert [MakePod(order[i])] + more + rest == [MakePod(order[i])] + (more + rest);
    }
  }

  lemma {:induction false} MissingPrefix(order: seq<string>, found: set<string>, i: nat)
    requires i <= |order|
    ensures Missing(order[..i], found) <= Missing(order, found)
    decreases |order|
  {
    if i < |order| {
      var n := |order| - 1;
      MissingPrefix(order[..n], found, i);
      assert order[..n][..i] == order[..i];
    } else {
      assert order[..i] == order;
    }
  }

  lemma MissingNext(order: seq<string>, found: set<string>, i: nat)
    requires i < |order|
    ensures Missing(order[..i + 1], found) == Missing(order[..i], found) + if order[i] in found then [] else [order[i]]
  {
    assert order[..i + 1][..i] == order[..i];
  }

  lemma PlusNext(pods: map<Uid, Pod>, next: Uid, m: Uid, table: Table, roles: seq<string>, role: string)
    requires forall r | r in roles + [role] :: r in table
    ensures forall r | r in roles :: r in table
    ensures Plus(pods, next, m, table, roles + [role])
         == Plus(pods, next, m, table, roles)[next + |roles| := FromTemplate(m, table[role])]
  {
    assert (roles + [role])[..|roles|] == roles;
  }

  lemma MissingOfNothing(order: seq<string>, found: set<string>)
    ensures Missing(order[..0], found) == []
  {
  }

  lemma NoMoreMakes(order: seq<string>, found: set<string>, rest: seq<Task>)
    ensures MakeTasks(order[|order|..], found) + rest == rest
  {
  }

  lemma OrderIsInTable(table: Table, order: seq<string>)
    requires IsRoleOrder(table, order)
    ensures forall i | 0 <= i < |order| :: order[i] in table
  {
    forall i | 0 <= i < |order| ensures order[i] in table {
      assert order[i] in (set t | t in order);
    }
  }

  // What the pass has done when it has come to position i of its order.
  ghost predicate PassSoFar(before: map<Uid, Pod>, now: map<Uid, Pod>, next: Uid, now': Uid, m: Uid, table: Table,
                            made: seq<string>)
  {
    && (forall r | r in made :: r in table)
    && now == Plus(before, next, m, table, made)
    && now' == next + |made|
  }

  lemma NothingSoFar(pods: map<Uid, Pod>, next: Uid, m: Uid, table: Table, order: seq<string>, found: set<string>)
    ensures PassSoFar(pods, pods, next, next, m, table, [])
    ensures order == [] ==> Missing(order, found) == []
  {
  }

  lemma OneMoreMade(before: map<Uid, Pod>, now: map<Uid, Pod>, next: Uid, now': Uid, m: Uid, table: Table,
                    made: seq<string>, role: string)
    requires PassSoFar(before, now, next, now', m, table, made) && role in table
    ensures PassSoFar(before, now[now' := FromTemplate(m, table[role])], next, now' + 1, m, table, made + [role])
  {
    PlusNext(before, next, m, table, made, role);
  }

  lemma SoFarIsAPass(before: map<Uid, Pod>, after: map<Uid, Pod>, next: Uid, next': Uid, m: Uid, table: Table,
                     order: seq<string>, made: seq<string>, i: nat, all: bool)
    requires PassSoFar(before, after, next, next', m, table, made) && i <= |order|
    requires made == Missing(order[..i], OwnedRoles(before, m)) && (all ==> i == |order|)
    ensures next' == next + |made|
    ensures PodPass(before, after, next, m, table, order, made, all)
  {
    hide OwnedRoles;
    MissingPrefix(order, OwnedRoles(before, m), i);
    assert order[..|order|] == order;
  }

  // --- A table labelled with its roles --------------------------------------------------------------------

  function MissingRoles(pods: map<Uid, Pod>, m: Uid, table: Table): set<string> {
    table.Keys - OwnedRoles(pods, m)
  }

  /** With role-coherent templates the roles still missing after a pass are those missing before without
      those it created: the set shrinks by exactly the number of successful creates, whichever call failed
      and whatever order the table was visited in. */
  lemma PassShrinksMissing(before: map<Uid, Pod>, after: map<Uid, Pod>, next: Uid, m: Uid, table: Table,
                           order: seq<string>, made: seq<string>, all: bool)
    requires RoleCoherent(table) && IsRoleOrder(table, order) && UidsBelow(before, next)
    requires PodPass(before, after, next, m, table, order, made, all)
    ensures MissingRoles(after, m, table) == MissingRoles(before, m, table) - SetOf(made)
    ensures |MissingRoles(after, m, table)| == |MissingRoles(before, m, table)| - |made|
    ensures all ==> MissingRoles(after, m, table) == {}
    ensures MissingRoles(before, m, table) == {} ==> made == [] && after == before
  {
    hide *;
    MissingAfterPass(before, after, next, m, table, order, made, all);
    DifferenceSize(MissingRoles(before, m, table), SetOf(made));
    EmptySize(MissingRoles(before, m, table));
  }

  // The same, without the counting.
  lemma MissingAfterPass(before: map<Uid, Pod>, after: map<Uid, Pod>, next: Uid, m: Uid, table: Table,
                         order: seq<string>, made: seq<string>, all: bool)
    requires RoleCoherent(table) && IsRoleOrder(table, order) && UidsBelow(before, next)
    requires PodPass(before, after, next, m, table, order, made, all)
    ensures MissingRoles(after, m, table) == MissingRoles(before, m, table) - SetOf(made)
    ensures SetOf(made) <= MissingRoles(before, m, table) && |SetOf(made)| == |made|
    ensures all ==> MissingRoles(after, m, table) == {}
    ensures MissingRoles(before, m, table) == {} ==> made == [] && after == before
  {
    hide Missing, OwnedRoles, IsRoleOrder, Plus, UidsBelow;
    MadeAreMissing(before, m, table, order, made);
    RolesAfter(before, next, m, table, made);
    LabelledAsListed(table, made);
    if MissingRoles(before, m, table) == {} {
      EmptySize(SetOf(made));
      NothingMade(before, next, m, table);
    }
  }

  lemma LabelledAsListed(table: Table, roles: seq<string>)
    requires RoleCoherent(table) && forall r | r in roles :: r in table
    ensures LabelledAs(table, roles) == SetOf(roles)
  {
    forall r | r in roles ensures r in LabelledAs(table, roles) {
      assert RoleOf(table[r].labels) == Some(r);
    }
  }

  lemma NothingMade(pods: map<Uid, Pod>, next: Uid, m: Uid, table: Table)
    ensures Plus(pods, next, m, table, []) == pods
  {
  }

  // The roles a pass creates are distinct missing ones; all of them if it is complete.
  lemma MadeAreMissing(before: map<Uid, Pod>, m: Uid, table: Table, order: seq<string>, made: seq<string>)
    requires IsRoleOrder(table, order) && made <= Missing(order, OwnedRoles(before, m))
    ensures SetOf(made) <= MissingRoles(before, m, table) && |SetOf(made)| == |made|
    ensures made == Missing(order, OwnedRoles(before, m)) ==> SetOf(made) == MissingRoles(before, m, table)
  {
    var found := OwnedRoles(before, m);
    var missing := Missing(order, found);
    MissingContent(order, found);
    MissingNoRepeats(order, found);
    assert forall t :: t in table <==> t in order by {
      assert forall t :: t in order <==> t in (set x | x in order);
    }
    assert made == missing[..|made|];
    assert forall r | r in made :: r in missing;
    DistinctSize(made);
  }

  // At most one pod of a machine for each role of the table.
  predicate OnePodPerRole(pods: map<Uid, Pod>, m: Uid, table: Table) {
    forall u, v | u in pods && v in pods && Owned(pods[u], m) && Owned(pods[v], m) &&
                  RoleOf(pods[u].labels).Some? && RoleOf(pods[u].labels) == RoleOf(pods[v].labels) &&
                  RoleOf(pods[u].labels).value in table :: u == v
  }

  /** A pass never makes a second pod for a role. */
  lemma PassKeepsOnePodPerRole(before: map<Uid, Pod>, after: map<Uid, Pod>, next: Uid, m: Uid, table: Table,
                               order: seq<string>, made: seq<string>, all: bool)
    requires RoleCoherent(table) && IsRoleOrder(table, order) && UidsBelow(before, next)
    requires PodPass(before, after, next, m, table, order, made, all)
    requires OnePodPerRole(before, m, table)
    ensures OnePodPerRole(after, m, table)
  {
    var found := OwnedRoles(before, m);
    var missing := Missing(order, found);
    PlusContent(before, next, m, table, made);
    MissingContent(order, found);
    MissingNoRepeats(order, found);
    assert made == missing[..|made|];
    forall u, v | u in after && v in after && Owned(after[u], m) && Owned(after[v], m) &&
                  RoleOf(after[u].labels).Some? && RoleOf(after[u].labels) == RoleOf(after[v].labels) &&
                  RoleOf(after[u].labels).value in table
      ensures u == v
    {
      var role := RoleOf(after[u].labels).value;
      if u in before {
        assert role in found;
      }
      if v in before {
        assert role in found;
      }
      if u !in before {
        assert Made(after, next + (u - next), m, table[made[u - next]]);
        assert made[u - next] in missing && made[u - next] == role;
      }
      if v !in before {
        assert Made(after, next + (v - next), m, table[made[v - next]]);
        assert made[v - next] in missing && made[v - next] == role;
      }
    }
  }

  // --- What others do -------------------------------------------------------------------------------------

  // The pods of machine m stay, but for their phases, and it gets none.
  predicate Elsewhere(before: map<Uid, Pod>, after: map<Uid, Pod>, m: Uid) {
    && (forall u | u in before :: u in after && after[u] == before[u].(phase := after[u].phase))
    && (forall u | u in after && u !in before :: !Owned(after[u], m))
  }

  lemma ElsewhereKeepsRoles(before: map<Uid, Pod>, after: map<Uid, Pod>, m: Uid)
    requires Elsewhere(before, after, m)
    ensures OwnedRoles(after, m) == OwnedRoles(before, m)
  {
    forall u | u in before
      ensures u in after && Owned(after[u], m) == Owned(before[u], m) && after[u].labels == before[u].labels
    {
    }
  }

  // --- A table with a role no template is labelled with ---------------------------------------------------

  // `role` is in the table, but no template carries it as its label.
  predicate Unlabelled(table: Table, role: string) {
    role in table && forall t | t in table :: RoleOf(table[t].labels) != Some(role)
  }

  /** A complete pass over a machine without pods leaves no role missing if and only if every role of the table
      labels some template, be it another role's. */
  lemma CompletePassCoversIff(before: map<Uid, Pod>, after: map<Uid, Pod>, next: Uid, m: Uid, table: Table,
                              order: seq<string>, made: seq<string>)
    requires IsRoleOrder(table, order) && UidsBelow(before, next) && OwnedRoles(before, m) == {}
    requires PodPass(before, after, next, m, table, order, made, true)
    ensures MissingRoles(after, m, table) == {} <==> forall role | role in table :: !Unlabelled(table, role)
  {
    hide OwnedRoles, Plus;
    RolesAfter(before, next, m, table, made);
    MissingContent(order, {});
    assert forall r :: r in made <==> r in table by {
      assert forall r :: r in order <==> r in (set t | t in order);
    }
    if MissingRoles(after, m, table) == {} {
      forall role | role in table ensures !Unlabelled(table, role) {
        assert role !in MissingRoles(after, m, table);
        var r :| r in made && ROLE_LABEL in table[r].labels && table[r].labels[ROLE_LABEL] == role;
        assert RoleOf(table[r].labels) == Some(role);
      }
    } else {
      var role :| role in MissingRoles(after, m, table);
      forall t | t in table ensures RoleOf(table[t].labels) != Some(role) {
        assert t in made && role !in LabelledAs(table, made);
      }
      assert Unlabelled(table, role);
    }
  }
}
