/** Template tables and the labels of their templates. */
module TableLabels {
  import opened Collections
  import opened Protocol
  import opened PodPasses

  // --- Tables that label each role once -------------------------------------------------------------------

  // The labels of some of a table's templates.
  function LabelsOf(table: Table, some: set<string>): set<string> {
    set t | t in some && t in table && ROLE_LABEL in table[t].labels :: table[t].labels[ROLE_LABEL]
  }

  lemma LabelsAreNoMore(table: Table, some: set<string>)
    ensures |LabelsOf(table, some)| <= |some|
  {
    if some != {} {
      var t :| t in some;
      LabelsAreNoMore(table, some - {t});
      var rest := LabelsOf(table, some - {t});
      if t in table && ROLE_LABEL in table[t].labels {
        OneMoreLabel(LabelsOf(table, some), rest, table[t].labels[ROLE_LABEL]);
      } else {
        SubsetSize(LabelsOf(table, some), rest);
      }
    }
  }

  lemma OneMoreLabel(a: set<string>, b: set<string>, x: string)
    requires a <= b + {x}
    ensures |a| <= |b| + 1
  {
    SubsetSize(a, b + {x});
  }

  // Without template x the others still carry every role of the table as a label.
  lemma OthersLabelAll(table: Table, x: string)
    requires x in table && forall role | role in table :: !Unlabelled(table, role)
    requires var role := RoleOf(table[x].labels);
             role.None? || role.value !in table || exists y :: y in table && y != x && RoleOf(table[y].labels) == role
    ensures table.Keys <= LabelsOf(table, table.Keys - {x})
  {
    hide LabelsOf, Unlabelled;
    var role := RoleOf(table[x].labels);
    forall r | r in table ensures r in LabelsOf(table, table.Keys - {x}) {
      var t := SomeTemplateWith(table, r);
      if t == x {
        t :| t in table && t != x && RoleOf(table[t].labels) == role;
      }
      IsLabel(table, table.Keys - {x}, t, r);
    }
  }

  lemma SomeTemplateWith(table: Table, role: string) returns (t: string)
    requires role in table && !Unlabelled(table, role)
    ensures t in table && RoleOf(table[t].labels) == Some(role)
  {
    t :| t in table && RoleOf(table[t].labels) == Some(role);
  }

  lemma IsLabel(table: Table, some: set<string>, t: string, role: string)
    requires t in some && t in table && RoleOf(table[t].labels) == Some(role)
    ensures role in LabelsOf(table, some)
  {
  }

  lemma TooFewLabels(table: Table, x: string)
    requires x in table
    ensures !(table.Keys <= LabelsOf(table, table.Keys - {x}))
  {
    hide LabelsOf;
    LabelsAreNoMore(table, table.Keys - {x});
    if table.Keys <= LabelsOf(table, table.Keys - {x}) {
      SubsetSize(table.Keys, LabelsOf(table, table.Keys - {x}));
    }
  }

  // When every role labels some template, each template has a role of its own.
  lemma EachLabelOnce(table: Table, x: string)
    requires x in table && forall role | role in table :: !Unlabelled(table, role)
    ensures RoleOf(table[x].labels).Some? && RoleOf(table[x].labels).value in table
    ensures forall y | y in table && y != x :: RoleOf(table[y].labels) != RoleOf(table[x].labels)
  {
    hide LabelsOf, Unlabelled;
    var role := RoleOf(table[x].labels);
    TooFewLabels(table, x);
    if role.None? || role.value !in table || exists y :: y in table && y != x && RoleOf(table[y].labels) == role {
      OthersLabelAll(table, x);
    }
  }

  lemma LabelledMeans(table: Table, roles: seq<string>, role: string)
    requires forall r | r in roles :: r in table
    ensures role in LabelledAs(table, roles) <==> exists r | r in roles :: RoleOf(table[r].labels) == Some(role)
  {
    if r :| r in roles && RoleOf(table[r].labels) == Some(role) {
      assert r in roles && ROLE_LABEL in table[r].labels;
    }
  }

  // --- Roles that never get a pod -------------------------------------------------------------------------

  // No pass over a machine with these roles makes a pod labelled with this role: of the templates that would be,
  // each is listed under a role that has a pod.
  predicate Blocked(table: Table, owned: set<string>, role: string) {
    role in table && role !in owned && forall t | t in table && RoleOf(table[t].labels) == Some(role) :: t in owned
  }

  /** A role that is blocked is blocked after every pass. */
  lemma BlockedStays(table: Table, order: seq<string>, owned: set<string>, role: string)
    requires Blocked(table, owned, role) && IsRoleOrder(table, order)
    ensures forall r | r in Missing(order, owned) :: r in table
    ensures Blocked(table, owned + LabelledAs(table, Missing(order, owned)), role)
  {
    hide Missing, LabelledAs;
    MissingContent(order, owned);
    OrderIsInTable(table, order);
    LabelledMeans(table, Missing(order, owned), role);
  }

  lemma UnlabelledBlocks(table: Table, role: string)
    requires Unlabelled(table, role)
    ensures Blocked(table, {}, role)
  {
  }

  /** When every role labels some template, and template t has another role's label b, a pod for b blocks the role
      that template b is labelled with. */
  lemma SwappedBlocks(table: Table, t: string) returns (role: string)
    requires t in table && RoleOf(table[t].labels) != Some(t)
    requires forall r | r in table :: !Unlabelled(table, r)
    ensures RoleOf(table[t].labels).Some? && Blocked(table, {RoleOf(table[t].labels).value}, role)
  {
    hide Unlabelled;
    EachLabelOnce(table, t);
    var b := RoleOf(table[t].labels).value;
    EachLabelOnce(table, b);
    role := RoleOf(table[b].labels).value;
  }
}
