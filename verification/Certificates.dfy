/** Certificate definitions, their grouping into a tree of CAs and leaves, and their configuration. */
module Certificates {
  import opened Collections
  import opened Protocol

  // --- The alternative names of the API server's certificate ----------------------------------------------

  /** The names: none if the service subnet has no virtual IP; otherwise that IP and the three service names,
      then the qualified name if there is a service domain, then a valid endpoint's host in exactly one list. */
  method GetAPIServerAltNames(lib: Library, c: ClusterSpec) returns (r: Option<AltNames>)
    ensures match lib.virtualIP(if c.serviceBlocks != [] then c.serviceBlocks[0] else "192.168.0.0/24")
            case None => r == None
            case Some(vip) =>
              && r.Some? && [vip] <= r.value.ips
              && ["kubernetes", "kubernetes.default", "kubernetes.default.svc"] <= r.value.dnsNames
              && |r.value.ips| + |r.value.dnsNames|
                 == 4 + (if c.serviceDomain != "" then 1 else 0) + (if HasEndpoint(c) then 1 else 0)
              && (c.serviceDomain != "" ==>
                    |r.value.dnsNames| > 3 && r.value.dnsNames[3] == "kubernetes.default.svc." + c.serviceDomain)
              && (HasEndpoint(c) ==>
                    match lib.parseIP(c.host)
                    case Some(ip) => r.value.ips == [vip, ip]
                    case None => r.value.ips == [vip] && r.value.dnsNames[|r.value.dnsNames| - 1] == c.host)
              && (!HasEndpoint(c) ==> r.value.ips == [vip])
    ensures r == AltNamesOf(lib, c)
  {
    var subnet := DEFAULT_SUBNET;
    if |c.serviceBlocks| > 0 {
      subnet := c.serviceBlocks[0];
    }
    var vip := lib.virtualIP(subnet);
    if vip.None? {
      return None;
    }
    var names := AltNames([vip.value], ["kubernetes", "kubernetes.default", "kubernetes.default.svc"]);
    if |c.serviceDomain| > 0 {
      names := names.(dnsNames := names.dnsNames + ["kubernetes.default.svc." + c.serviceDomain]);
    }
    if HasEndpoint(c) {
      var ip := lib.parseIP(c.host);
      if ip.Some? {
        names := names.(ips := names.ips + [ip.value]);
      } else {
        names := names.(dnsNames := names.dnsNames + [c.host]);
      }
    }
    ghost var ip := if HasEndpoint(c) then lib.parseIP(c.host) else None;
    assert names.ips == [vip.value] + if ip.Some? then [ip.value] else [];
    assert names.dnsNames == ["kubernetes", "kubernetes.default", "kubernetes.default.svc"]
        + (if c.serviceDomain != "" then ["kubernetes.default.svc." + c.serviceDomain] else [])
        + if HasEndpoint(c) && ip.None? then [c.host] else [];
    r := Some(names);
  }

  datatype Mutator = AppendAPIServerAltNames

  // What one mutator does to a configuration; a failure to compute the names is ignored.
  function Mutate(config: AltNames, names: Option<AltNames>): AltNames {
    match names
    case None => config
    case Some(a) => AltNames(config.ips + a.ips, config.dnsNames + a.dnsNames)
  }

  function MutateTimes(config: AltNames, names: Option<AltNames>, n: nat): AltNames {
    if n == 0 then config else Mutate(MutateTimes(config, names, n - 1), names)
  }

  function Repeat<T>(s: seq<T>, n: nat): seq<T> {
    if n == 0 then [] else Repeat(s, n - 1) + s
  }

  /** n mutations append exactly n copies of the computed names, and nothing if they cannot be computed. */
  lemma {:induction false} MutationsAppendCopies(config: AltNames, names: Option<AltNames>, n: nat)
    ensures MutateTimes(config, names, n) ==
            match names
            case None => config
            case Some(a) => AltNames(config.ips + Repeat(a.ips, n), config.dnsNames + Repeat(a.dnsNames, n))
  {
    if n > 0 {
      MutationsAppendCopies(config, names, n - 1);
    }
  }

  lemma {:induction false} MutateTimesAdd(config: AltNames, names: Option<AltNames>, a: nat, b: nat)
    ensures MutateTimes(MutateTimes(config, names, a), names, b) == MutateTimes(config, names, a + b)
  {
    if b > 0 {
      MutateTimesAdd(config, names, a, b - 1);
    }
  }

  // --- Definitions ----------------------------------------------------------------------------------------

  // A definition is shared by reference: the tree is keyed by it, and its configuration changes in place.
  class KinkCert {
    const name: string
    const caName: string
    const mutators: seq<Mutator>
    var config: AltNames

    constructor (name: string, caName: string, mutators: seq<Mutator>)
      ensures this.name == name && this.caName == caName && this.mutators == mutators
      ensures config == NoNames()
    {
      this.name, this.caName, this.mutators := name, caName, mutators;
      config := NoNames();
    }

    /** Every call runs every mutator again on the configuration the last call left. */
    method GetConfig(lib: Library, c: ClusterSpec) returns (r: AltNames)
      modifies this`config
      ensures config == MutateTimes(old(config), AltNamesOf(lib, c), |mutators|) && r == config
    {
      for i := 0 to |mutators|
        invariant config == MutateTimes(old(config), AltNamesOf(lib, c), i)
      {
        match mutators[i]
        case AppendAPIServerAltNames =>
          var names := GetAPIServerAltNames(lib, c);
          if names.Some? {
            config := AltNames(config.ips + names.value.ips, config.dnsNames + names.value.dnsNames);
          }
      }
      r := config;
    }
  }

  // The definitions the operator ships, root first in each half.
  method GetCerts() returns (certs: seq<KinkCert>)
    ensures fresh(set c | c in certs) && |certs| == 5
    ensures forall i, j | 0 <= i < j < |certs| :: certs[i] != certs[j]
    ensures forall i | 0 <= i < 5 :: (certs[i].name, certs[i].caName) == ShippedDefinitions()[i]
    ensures forall i | 0 <= i < 5 :: |certs[i].mutators| == if certs[i].name == "apiserver" then 1 else 0
    ensures forall c | c in certs :: c.config == AltNames([], [])
  {
    var rootCA := new KinkCert("ca", "", []);
    var apiServer := new KinkCert("apiserver", "ca", [AppendAPIServerAltNames]);
    var kubeletClient := new KinkCert("kubelet-client", "ca", []);
    var frontProxyCA := new KinkCert("front-proxy-ca", "", []);
    var frontProxyClient := new KinkCert("front-proxy-client", "front-proxy-ca", []);
    certs := [rootCA, apiServer, kubeletClient, frontProxyCA, frontProxyClient];
  }

  // Name and CA name of the shipped definitions.
  function ShippedDefinitions(): seq<(string, string)> {
    [("ca", ""), ("apiserver", "ca"), ("kubelet-client", "ca"),
     ("front-proxy-ca", ""), ("front-proxy-client", "front-proxy-ca")]
  }

  // Of the first k definitions, the i-th is the last one of name n.
  predicate LastNamed(certs: seq<KinkCert>, n: string, i: nat, k: nat)
    requires i < k <= |certs|
  {
    certs[i].name == n && forall j | i < j < k :: certs[j].name != n
  }

  /** The map of a list: exactly the names that occur, each with the last definition of that name. */
  method AsMap(certs: seq<KinkCert>) returns (m: map<string, KinkCert>)
    ensures forall n :: n in m <==> exists i | 0 <= i < |certs| :: certs[i].name == n
    ensures forall n | n in m ::
              exists i | 0 <= i < |certs| ::
                certs[i] == m[n] && certs[i].name == n && forall j | i < j < |certs| :: certs[j].name != n
  {
    m := map[];
    for k := 0 to |certs|
      invariant forall n :: n in m <==> exists i | 0 <= i < k :: certs[i].name == n
      invariant forall n | n in m ::
                  exists i | 0 <= i < k :: certs[i] == m[n] && LastNamed(certs, n, i, k)
    {
      ghost var before := m;
      m := m[certs[k].name := certs[k]];
      forall n | n in m
        ensures exists i | 0 <= i < k + 1 :: certs[i] == m[n] && LastNamed(certs, n, i, k + 1)
      {
        if n != certs[k].name {
          var i :| 0 <= i < k && certs[i] == before[n] && LastNamed(certs, n, i, k);
          assert LastNamed(certs, n, i, k + 1);
        } else {
          assert LastNamed(certs, n, k, k + 1);
        }
      }
    }
  }

  // --- Grouping -------------------------------------------------------------------------------------------

  type CertMap = map<string, KinkCert>

  type CertTree = map<KinkCert, seq<KinkCert>>

  predicate Dangling(m: CertMap, k: string)
    requires k in m
  {
    m[k].caName != "" && m[k].caName !in m
  }

  // Definition `k` hangs below `ca`.
  predicate HangsBelow(m: CertMap, k: string, ca: KinkCert) {
    k in m && m[k].caName != "" && m[k].caName in m && m[m[k].caName] == ca
  }

  // The leaves of a CA in the order the map is visited.
  function Leaves(m: CertMap, order: seq<string>, ca: KinkCert): seq<KinkCert>
    requires forall k | k in order :: k in m
  {
    if order == [] then []
    else
      var last := order[|order| - 1];
      Leaves(m, order[..|order| - 1], ca) + if HangsBelow(m, last, ca) then [m[last]] else []
  }

  // The nodes a visit opens: roots, and every definition that another one names as its CA.
  predicate Opens(m: CertMap, order: seq<string>, ca: KinkCert)
    requires forall k | k in order :: k in m
  {
    exists k | k in order :: (m[k].caName == "" && m[k] == ca) || HangsBelow(m, k, ca)
  }

  predicate Visits(m: CertMap, order: seq<string>) {
    (forall k | k in order :: k in m) && (forall k | k in m :: k in order)
  }

  lemma VisitOneMore(m: CertMap, order: seq<string>, i: nat, ca: KinkCert)
    requires i < |order| && forall k | k in order :: k in m
    ensures forall x :: x in order[..i + 1] <==> x in order[..i] || x == order[i]
    ensures Opens(m, order[..i + 1], ca) <==>
            Opens(m, order[..i], ca) || (m[order[i]].caName == "" && m[order[i]] == ca) || HangsBelow(m, order[i], ca)
    ensures Leaves(m, order[..i + 1], ca)
         == Leaves(m, order[..i], ca) + if HangsBelow(m, order[i], ca) then [m[order[i]]] else []
    ensures !Opens(m, order[..i], ca) ==> Leaves(m, order[..i], ca) == []
  {
    var more := order[..i + 1];
    assert more[..i] == order[..i] && more[i] == order[i];
    assert forall x :: x in more <==> x in order[..i] || x == order[i];
    if !Opens(m, order[..i], ca) {
      NothingBelow(m, order[..i], ca);
    }
  }

  /** Grouping fails exactly when some definition names an unknown CA. Otherwise the nodes are the roots and
      every definition named as a CA, and each node has exactly the definitions that name it. */
  method CertTreeOf(m: CertMap, order: seq<string>) returns (tree: Option<CertTree>)
    requires Visits(m, order)
    ensures tree.None? <==> exists k | k in m :: m[k].caName != "" && m[k].caName !in m
    ensures tree.Some? ==> forall ca :: ca in tree.value <==> Opens(m, order, ca)
    ensures tree.Some? ==> forall ca | ca in tree.value :: tree.value[ca] == Leaves(m, order, ca)
  {
    var caMap: CertTree := map[];
    for i := 0 to |order|
      invariant forall k | k in order[..i] :: !Dangling(m, k)
      invariant forall ca :: ca in caMap <==> Opens(m, order[..i], ca)
      invariant forall ca | ca in caMap :: caMap[ca] == Leaves(m, order[..i], ca)
    {
      hide Opens, Leaves;
      var k := order[i];
      var cert := m[k];
      forall ca {
        VisitOneMore(m, order, i, ca);
      }
      VisitOneMore(m, order, i, cert);
      if cert.caName == "" {
        if cert !in caMap {
          caMap := caMap[cert := []];
        }
      } else {
        if cert.caName !in m {
          assert Dangling(m, k);
          return None;
        }
        var ca := m[cert.caName];
        VisitOneMore(m, order, i, ca);
        caMap := caMap[ca := (if ca in caMap then caMap[ca] else []) + [cert]];
      }
    }
    assert order[..|order|] == order;
    tree := Some(caMap);
  }

  /** Grouping opens a node for every root and for every definition that one names as its CA, and no other. */
  lemma NodesAreRootsAndCAs(m: CertMap, order: seq<string>, ca: KinkCert)
    requires Visits(m, order) && forall k | k in m :: m[k].caName == "" || m[k].caName in m
    ensures Opens(m, order, ca) <==> exists k | k in m :: ca == if m[k].caName == "" then m[k] else m[m[k].caName]
  {
    if k :| k in m && ca == if m[k].caName == "" then m[k] else m[m[k].caName] {
      assert k in order && ((m[k].caName == "" && m[k] == ca) || HangsBelow(m, k, ca));
    }
  }

  // A node that was not opened has no leaves.
  lemma {:induction false} NothingBelow(m: CertMap, order: seq<string>, ca: KinkCert)
    requires forall k | k in order :: k in m
    requires !Opens(m, order, ca)
    ensures Leaves(m, order, ca) == []
  {
    if order != [] {
      var rest, last := order[..|order| - 1], order[|order| - 1];
      assert last in order && forall k | k in rest :: k in order;
      NothingBelow(m, rest, ca);
    }
  }

  // How often a definition hangs below a CA is how often the visit meets its name, if names are its own.
  lemma {:induction false} LeafCount(m: CertMap, order: seq<string>, ca: KinkCert, k: string)
    requires forall x | x in order :: x in m
    requires k in m && forall x | x in m && m[x] == m[k] :: x == k
    ensures Count(Leaves(m, order, ca), m[k]) == if HangsBelow(m, k, ca) then Count(order, k) else 0
  {
    hide Count, HangsBelow;
    if order == [] {
      NoneCounted(m[k], k);
    } else {
      var rest, last := order[..|order| - 1], order[|order| - 1];
      assert last in order && forall x | x in rest :: x in order;
      LeafCount(m, rest, ca, k);
      var more := if HangsBelow(m, last, ca) then [m[last]] else [];
      CountConcat(Leaves(m, rest, ca), more, m[k]);
      CountConcat(rest, [last], k);
      assert order == rest + [last];
      OneCounted(m[last], m[k]);
      OneCounted(last, k);
      NoneCounted(m[k], k);
    }
  }

  lemma OneCounted<T>(y: T, x: T)
    ensures Count([y], x) == if y == x then 1 else 0
  {
    assert [y][..0] == [];
  }

  lemma NoneCounted<T, U>(x: T, y: U)
    ensures Count([], x) == 0 && Count([], y) == 0
  {
  }

  /** Each definition with a CA occurs exactly once in the tree, below its own CA, wherever in the visit its
      CA is met; a root occurs nowhere. */
  lemma EachLeafOnce(m: CertMap, order: seq<string>, k: string, ca: KinkCert)
    requires Visits(m, order) && NoRepeats(order) && k in m
    requires forall x | x in m && m[x] == m[k] :: x == k
    ensures multiset(Leaves(m, order, ca))[m[k]]
         == if m[k].caName != "" && m[k].caName in m && m[m[k].caName] == ca then 1 else 0
  {
    LeafCount(m, order, ca, k);
    CountOnce(order, k);
    CountIsMultiplicity(Leaves(m, order, ca), m[k]);
  }

  lemma {:induction false} LeavesAreBelow(m: CertMap, order: seq<string>, ca: KinkCert, c: KinkCert)
    requires forall x | x in order :: x in m
    requires c in Leaves(m, order, ca)
    ensures exists k | k in order :: m[k] == c && HangsBelow(m, k, ca)
  {
    var rest, last := order[..|order| - 1], order[|order| - 1];
    assert last in order && forall x | x in rest :: x in order;
    if c in Leaves(m, rest, ca) {
      LeavesAreBelow(m, rest, ca, c);
    }
  }

  lemma SameMultiplicity(m: CertMap, order1: seq<string>, order2: seq<string>, ca: KinkCert, c: KinkCert)
    requires Visits(m, order1) && NoRepeats(order1) && Visits(m, order2) && NoRepeats(order2)
    requires forall x, y | x in m && y in m && m[x] == m[y] :: x == y
    requires c in Leaves(m, order1, ca)
    ensures multiset(Leaves(m, order1, ca))[c] == multiset(Leaves(m, order2, ca))[c]
  {
    LeavesAreBelow(m, order1, ca, c);
    var k :| k in order1 && m[k] == c && HangsBelow(m, k, ca);
    EachLeafOnce(m, order1, k, ca);
    EachLeafOnce(m, order2, k, ca);
  }

  /** Two visits of one map in different orders agree on every node and on each node's leaves up to order. */
  lemma VisitOrderIsIrrelevant(m: CertMap, order1: seq<string>, order2: seq<string>, ca: KinkCert)
    requires Visits(m, order1) && NoRepeats(order1) && Visits(m, order2) && NoRepeats(order2)
    requires forall x, y | x in m && y in m && m[x] == m[y] :: x == y
    ensures Opens(m, order1, ca) <==> Opens(m, order2, ca)
    ensures multiset(Leaves(m, order1, ca)) == multiset(Leaves(m, order2, ca))
  {
    hide Leaves, NoRepeats, HangsBelow;
    var a, b := multiset(Leaves(m, order1, ca)), multiset(Leaves(m, order2, ca));
    forall c | c in a || c in b ensures a[c] == b[c] {
      if c in Leaves(m, order1, ca) {
        SameMultiplicity(m, order1, order2, ca, c);
      } else if c in Leaves(m, order2, ca) {
        SameMultiplicity(m, order2, order1, ca, c);
      }
    }
    SameMultiset(a, b);
  }

  // --- Counting leaves ------------------------------------------------------------------------------------

  function NonRoots(m: CertMap, order: seq<string>): nat
    requires forall k | k in order :: k in m
  {
    if order == [] then 0
    else NonRoots(m, order[..|order| - 1]) + if m[order[|order| - 1]].caName != "" then 1 else 0
  }

  function TotalLeaves(m: CertMap, order: seq<string>, cas: seq<KinkCert>): nat
    requires forall k | k in order :: k in m
  {
    if cas == [] then 0 else TotalLeaves(m, order, cas[..|cas| - 1]) + |Leaves(m, order, cas[|cas| - 1])|
  }

  lemma {:induction false} NoLeavesYet(m: CertMap, cas: seq<KinkCert>)
    ensures TotalLeaves(m, [], cas) == 0
  {
    if cas != [] {
      NoLeavesYet(m, cas[..|cas| - 1]);
    }
  }

  lemma {:induction false} OneMoreVisit(m: CertMap, order: seq<string>, cas: seq<KinkCert>, ca: KinkCert)
    requires order != [] && forall k | k in order :: k in m
    requires var last := order[|order| - 1];
             if HangsBelow(m, last, ca) then true else m[last].caName == ""
    ensures TotalLeaves(m, order, cas)
         == TotalLeaves(m, order[..|order| - 1], cas)
            + if m[order[|order| - 1]].caName != "" then Count(cas, ca) else 0
  {
    if cas != [] {
      OneMoreVisit(m, order, cas[..|cas| - 1], ca);
      var last := order[|order| - 1];
      assert forall c :: HangsBelow(m, last, c) ==> c == ca;
    }
  }

  /** The leaves of all nodes together are as many as the definitions that have a CA. */
  lemma {:induction false} LeavesAreTheNonRoots(m: CertMap, order: seq<string>, cas: seq<KinkCert>)
    requires forall k | k in order :: k in m && !Dangling(m, k)
    requires NoRepeats(cas) && forall k, ca | k in order && HangsBelow(m, k, ca) :: ca in cas
    ensures TotalLeaves(m, order, cas) == NonRoots(m, order)
  {
    if order == [] {
      NoLeavesYet(m, cas);
    } else {
      var rest, last := order[..|order| - 1], order[|order| - 1];
      assert last in order && forall k | k in rest :: k in order;
      LeavesAreTheNonRoots(m, rest, cas);
      var ca := if m[last].caName == "" then m[last] else m[m[last].caName];
      OneMoreVisit(m, order, cas, ca);
      if m[last].caName != "" {
        assert HangsBelow(m, last, ca);
        CountOnce(cas, ca);
      }
    }
  }
}
