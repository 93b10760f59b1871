/** The alternative names of the stored certificate of the API server, in every run. */
module ServingCertificate {
  import opened Protocol
  import opened Typing
  import opened Safety
  import opened CertificateHistory

  // The moment a secret came to exist.
  lemma {:induction false} StoredAtSomeMoment(cfg: Config, log: seq<Event>, n: string) returns (j: nat)
    requires n in Run(cfg, InitialState(), log).secrets
    ensures j < |log| && n !in Run(cfg, InitialState(), log[..j]).secrets
    ensures n in Run(cfg, InitialState(), log[..j + 1]).secrets
  {
    hide Next;
    var last := |log| - 1;
    if n in Run(cfg, InitialState(), log[..last]).secrets {
      j := StoredAtSomeMoment(cfg, log[..last], n);
      assert log[..last][..j] == log[..j] && log[..last][..j + 1] == log[..j + 1];
    } else {
      j := last;
      assert log[..last + 1] == log;
    }
  }

  // The cluster was ready with this specification at some moment of a log that says so.
  lemma {:induction false} ReadyWithSpec(cfg: Config, log: seq<Event>, spec: ClusterSpec) returns (i: nat)
    requires spec in Run(cfg, InitialState(), log).everOpen
    ensures i <= |log| && Run(cfg, InitialState(), log[..i]).open == Some(spec) && HasEndpoint(spec)
  {
    hide HasEndpoint;
    var n := |log| - 1;
    if spec in Run(cfg, InitialState(), log[..n]).everOpen {
      i := ReadyWithSpec(cfg, log[..n], spec);
      assert log[..n][..i] == log[..i];
    } else {
      i := |log|;
      assert log[..i] == log;
    }
  }

  // Whoever writes the API server's certificate writes the names of the cluster that let it through the gate.
  lemma WrittenNames(cfg: Config, s: Sys, e: Event) returns (spec: ClusterSpec)
    requires WellFormed(cfg) && Safe(cfg, s) && API_SERVER_CERT in LeafNames(cfg.tree)
    requires API_SERVER_CERT !in s.secrets && API_SERVER_CERT in Next(cfg, s, e).secrets
    ensures spec in s.everOpen
    ensures Next(cfg, s, e).secrets[API_SERVER_CERT].names == AltNamesOf(cfg.lib, spec).GetOr(NoNames())
    ensures e.SecretCreated? && Enabled(cfg, s, e) && IsControlPlane(s, e.p) && spec == s.procs[e.p].actor.spec
    ensures Next(cfg, s, e).writtenBy == s.writtenBy[API_SERVER_CERT := e.p]
  {
    hide AltNamesOf;
    assert e.SecretCreated? && Enabled(cfg, s, e);
    var pr, t := s.procs[e.p], Current(s, e.p);
    assert Typed(cfg, pr) && Allowed(cfg, pr.actor, t, pr.done, pr.keys.Keys);
    assert t.PutLeaf? && IsControlPlane(s, e.p);
    spec := pr.actor.spec;
  }

  // The stored certificate of the API server has the names of the cluster its writer has read.
  ghost predicate NamesTraced(cfg: Config, s: Sys) {
    API_SERVER_CERT in s.secrets ==>
      && API_SERVER_CERT in s.writtenBy && IsControlPlane(s, s.writtenBy[API_SERVER_CERT])
      && s.secrets[API_SERVER_CERT].names
         == AltNamesOf(cfg.lib, s.procs[s.writtenBy[API_SERVER_CERT]].actor.spec).GetOr(NoNames())
  }

  lemma StepKeepsNamesTraced(cfg: Config, s: Sys, e: Event)
    requires WellFormed(cfg) && Safe(cfg, s) && API_SERVER_CERT in LeafNames(cfg.tree) && NamesTraced(cfg, s)
    ensures NamesTraced(cfg, Next(cfg, s, e))
  {
    hide AltNamesOf, Next, WellFormed, Safe, LeafNames, Enabled;
    if API_SERVER_CERT in s.secrets {
      StoredNamesStay(cfg, s, e);
      ActorKept(cfg, s, e, s.writtenBy[API_SERVER_CERT]);
    } else if API_SERVER_CERT in Next(cfg, s, e).secrets {
      var _ := WrittenNames(cfg, s, e);
      ActorKept(cfg, s, e, e.p);
    }
  }

  lemma StoredNamesStay(cfg: Config, s: Sys, e: Event)
    requires API_SERVER_CERT in s.secrets && API_SERVER_CERT in s.writtenBy
    ensures API_SERVER_CERT in Next(cfg, s, e).secrets && API_SERVER_CERT in Next(cfg, s, e).writtenBy
    ensures Next(cfg, s, e).secrets[API_SERVER_CERT] == s.secrets[API_SERVER_CERT]
    ensures Next(cfg, s, e).writtenBy[API_SERVER_CERT] == s.writtenBy[API_SERVER_CERT]
  {
  }

  lemma {:induction false} EveryRunTracesNames(cfg: Config, log: seq<Event>)
    requires WellFormed(cfg) && API_SERVER_CERT in LeafNames(cfg.tree)
    ensures NamesTraced(cfg, Run(cfg, InitialState(), log))
  {
    hide Safe, WellFormed, Next, NamesTraced, LeafNames;
    if log == [] {
      NothingToTrace(cfg);
    } else {
      var n := |log| - 1;
      EveryRunTracesNames(cfg, log[..n]);
      EveryRunIsSafe(cfg, log[..n]);
      StepKeepsNamesTraced(cfg, Run(cfg, InitialState(), log[..n]), log[n]);
    }
  }

  /** No other certificate ever carries alternative names. */
  lemma {:induction false} OnlyTheServingCertificateHasNames(cfg: Config, log: seq<Event>, n: string)
    requires n in Run(cfg, InitialState(), log).secrets && n != "apiserver"
    ensures Run(cfg, InitialState(), log).secrets[n].names == AltNames([], [])
  {
    var early, e := Run(cfg, InitialState(), log[..|log| - 1]), log[|log| - 1];
    if n in early.secrets {
      OnlyTheServingCertificateHasNames(cfg, log[..|log| - 1], n);
    }
  }

  lemma NothingToTrace(cfg: Config)
    ensures NamesTraced(cfg, InitialState())
  {
  }

  // The qualified name of the API server's service, if there is a service domain.
  function DomainName(c: ClusterSpec): (r: seq<string>)
    ensures c.serviceDomain != "" ==> r == ["kubernetes.default.svc." + c.serviceDomain]
    ensures c.serviceDomain == "" ==> r == []
  {
    if c.serviceDomain != "" then ["kubernetes.default.svc." + c.serviceDomain] else []
  }

  /** In every run the stored certificate of the API server carries, each once, the names computed for a
      specification with which the cluster was ready at some moment `i` before the certificate was stored. If they
      can be computed, the host of that endpoint is among them, in exactly one of the two lists. */
  lemma ServingNamesAreTheGates(cfg: Config, log: seq<Event>) returns (spec: ClusterSpec, i: nat)
    requires WellFormed(cfg) && API_SERVER_CERT in LeafNames(cfg.tree)
    requires API_SERVER_CERT in Run(cfg, InitialState(), log).secrets
    ensures i <= |log| && API_SERVER_CERT !in Run(cfg, InitialState(), log[..i]).secrets
    ensures Run(cfg, InitialState(), log[..i]).open == Some(spec) && spec.host != "" && spec.port != 0
    ensures var names := Run(cfg, InitialState(), log).secrets[API_SERVER_CERT].names;
            match cfg.lib.virtualIP(if spec.serviceBlocks != [] then spec.serviceBlocks[0] else "192.168.0.0/24")
            case None => names == AltNames([], [])
            case Some(vip) =>
              var services := ["kubernetes", "kubernetes.default", "kubernetes.default.svc"] + DomainName(spec);
              match cfg.lib.parseIP(spec.host)
              case Some(ip) => names == AltNames([vip, ip], services)
              case None => names == AltNames([vip], services + [spec.host])
  {
    hide Run, WellFormed, Safe, LeafNames, Next, AltNamesOf;
    var n := API_SERVER_CERT;
    var j := StoredAtSomeMoment(cfg, log, n);
    EveryRunIsSafe(cfg, log[..j]);
    EveryRunIsSafe(cfg, log[..j + 1]);
    RunStep(cfg, InitialState(), log, j);
    spec := WrittenNames(cfg, Run(cfg, InitialState(), log[..j]), log[j]);
    i := ReadyWithSpec(cfg, log[..j], spec);
    assert log[..j][..i] == log[..i];
    OpenWasOpen(cfg, log[..i]);
    NotStoredBefore(cfg, log, i, j);
    NamesComputed(cfg.lib, spec);
    NoNameBeyond(cfg, Run(cfg, InitialState(), log[..j + 1]));
    CreateOnce(cfg, Run(cfg, InitialState(), log[..j + 1]), log[j + 1..], n);
    assert log == log[..j + 1] + log[j + 1..];
    RunAppend(cfg, InitialState(), log[..j + 1], log[j + 1..]);
  }

  lemma NotStoredBefore(cfg: Config, log: seq<Event>, i: nat, j: nat)
    requires WellFormed(cfg) && i <= j <= |log| && API_SERVER_CERT !in Run(cfg, InitialState(), log[..j]).secrets
    ensures API_SERVER_CERT !in Run(cfg, InitialState(), log[..i]).secrets
  {
    hide Run, WellFormed, Safe;
    if API_SERVER_CERT in Run(cfg, InitialState(), log[..i]).secrets {
      EveryRunIsSafe(cfg, log[..i]);
      NoNameBeyond(cfg, Run(cfg, InitialState(), log[..i]));
      CreateOnce(cfg, Run(cfg, InitialState(), log[..i]), log[i..j], API_SERVER_CERT);
      assert log[..j] == log[..i] + log[i..j];
      RunAppend(cfg, InitialState(), log[..i], log[i..j]);
    }
  }

  lemma NamesComputed(lib: Library, spec: ClusterSpec)
    requires HasEndpoint(spec)
    ensures var names := AltNamesOf(lib, spec).GetOr(NoNames());
            match lib.virtualIP(if spec.serviceBlocks != [] then spec.serviceBlocks[0] else "192.168.0.0/24")
            case None => names == AltNames([], [])
            case Some(vip) =>
              var services := ["kubernetes", "kubernetes.default", "kubernetes.default.svc"] + DomainName(spec);
              match lib.parseIP(spec.host)
              case Some(ip) => names == AltNames([vip, ip], services)
              case None => names == AltNames([vip], services + [spec.host])
  {
    match lib.virtualIP(SubnetOf(spec))
    case None =>
    case Some(vip) =>
      var services := ["kubernetes", "kubernetes.default", "kubernetes.default.svc"] + DomainName(spec);
      assert services + [] == services && [vip] + [] == [vip];
      match lib.parseIP(spec.host)
      case Some(ip) => assert [vip] + [ip] == [vip, ip];
      case None =>
  }
}
