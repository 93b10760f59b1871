/** The names of the secrets of a cluster, and what two clusters in one namespace can clash on. */
module Names {

  // The six names a control-plane pod mounts, in the order of the source's list.
  function MountedCerts(): seq<string> {
    ["ca", "apiserver", "kubelet-client", "front-proxy-ca", "front-proxy-client", "sa"]
  }

  const CERTIFICATES_DIR := "/etc/kubernetes/pki"

  datatype Volume = Volume(name: string, secretName: string)

  datatype VolumeMount = VolumeMount(name: string, mountPath: string)

  // The format "%s-%s" shared by certificates, the service-account key and the kubeconfig.
  function SecretName(cluster: string, suffix: string): string {
    cluster + "-" + suffix
  }

  // Every suffix the operator appends to a cluster name.
  predicate IsSuffix(s: string) {
    s in MountedCerts() || s == "kubeconfig"
  }

  // `long` is `short` behind some prefix that ends in the separator.
  predicate EndsInDashed(long: string, short: string) {
    && |short| < |long|
    && long[|long| - |short| - 1] == '-'
    && long[|long| - |short|..] == short
  }

  /** Within one cluster two different suffixes never give the same name. */
  lemma SecretNameInjective(cluster: string, a: string, b: string)
    ensures SecretName(cluster, a) == SecretName(cluster, b) <==> a == b
  {
    var n, m := SecretName(cluster, a), SecretName(cluster, b);
    assert n[|cluster| + 1..] == a && m[|cluster| + 1..] == b;
  }

  // What follows a dash in a suffix.
  lemma BehindDash(long: string, i: nat)
    requires IsSuffix(long) && i < |long| - 1 && long[i] == '-'
    ensures (long == "front-proxy-ca" && i == 11) || long[i + 1] == 'p' || |long| - i - 1 == |"client"|
  {
  }

  // No suffix is "client" or starts with a 'p'.
  lemma NoClient(short: string)
    requires IsSuffix(short)
    ensures short != [] && short[0] != 'p' && |short| != |"client"|
  {
  }

  // Only "front-proxy-ca" ends in another suffix behind a dash, and that suffix is "ca".
  lemma OnlyFrontProxyNests(long: string, short: string)
    requires IsSuffix(long) && IsSuffix(short)
    ensures EndsInDashed(long, short) <==> long == "front-proxy-ca" && short == "ca"
  {
    hide IsSuffix;
    if EndsInDashed(long, short) {
      var i := |long| - |short| - 1;
      NoClient(short);
      BehindDash(long, i);
      assert short[0] == long[i + 1];
      assert "front-proxy-ca"[12..] == "ca";
    }
    assert EndsInDashed("front-proxy-ca", "ca");
  }

  // With the shorter cluster name first, a clash means the longer one swallowed part of the suffix.
  lemma ClashMeansNesting(c: string, d: string, a: string, b: string)
    requires |c| < |d|
    requires SecretName(c, a) == SecretName(d, b)
    ensures EndsInDashed(a, b)
    ensures d == c + "-" + a[..|a| - |b| - 1]
  {
    var n := SecretName(c, a);
    assert n == SecretName(d, b);
    assert |n| == |c| + 1 + |a| == |d| + 1 + |b|;
    assert n[|c| + 1..] == a;
    assert n[|d| + 1..] == b;
    assert a[|d| - |c|..] == b;
    assert n[|d|] == '-';
    assert a[|d| - |c| - 1] == n[|d|];
    assert n[..|d|] == d;
    assert n[..|c|] == c && n[|c|] == '-';
    assert d == c + "-" + n[|c| + 1..|d|];
    assert n[|c| + 1..|d|] == a[..|d| - |c| - 1];
  }

  /** Two clusters of one namespace share a secret name exactly when one is the other plus "-front-proxy",
      and then only the longer one's root CA meets the shorter one's front-proxy CA. */
  lemma ClashIff(c: string, d: string, a: string, b: string)
    requires c != d
    requires IsSuffix(a) && IsSuffix(b)
    ensures SecretName(c, a) == SecretName(d, b) <==>
            || (d == c + "-front-proxy" && a == "front-proxy-ca" && b == "ca")
            || (c == d + "-front-proxy" && b == "front-proxy-ca" && a == "ca")
  {
    assert SecretName(c, a)[..|c|] == c && SecretName(d, b)[..|d|] == d;
    if SecretName(c, a) == SecretName(d, b) {
      if |c| < |d| {
        ClashMeansNesting(c, d, a, b);
        OnlyFrontProxyNests(a, b);
        assert "front-proxy-ca"[..11] == "front-proxy";
      }
      if |d| < |c| {
        ClashMeansNesting(d, c, b, a);
        OnlyFrontProxyNests(b, a);
        assert "front-proxy-ca"[..11] == "front-proxy";
      }
    }
    if d == c + "-front-proxy" {
      FrontProxyClash(c);
    }
    if c == d + "-front-proxy" {
      FrontProxyClash(d);
    }
  }

  lemma FrontProxyClash(c: string)
    ensures SecretName(c + "-front-proxy", "ca") == SecretName(c, "front-proxy-ca")
  {
    assert "-front-proxy" + "-" + "ca" == "-" + "front-proxy-ca";
    assert SecretName(c + "-front-proxy", "ca") == c + ("-front-proxy" + "-" + "ca");
    assert SecretName(c, "front-proxy-ca") == c + ("-" + "front-proxy-ca");
  }

  /** The volumes and mounts of a control-plane pod: one per name of the list, in the order of the list. */
  method GetSecretVolumes(cluster: string) returns (volumes: seq<Volume>, mounts: seq<VolumeMount>)
    ensures MountedCerts() == ["ca", "apiserver", "kubelet-client", "front-proxy-ca", "front-proxy-client", "sa"]
    ensures |volumes| == |mounts| == |MountedCerts()|
    ensures forall i | 0 <= i < |MountedCerts()| ::
              && volumes[i].secretName == volumes[i].name == mounts[i].name == cluster + "-" + MountedCerts()[i]
              && mounts[i].mountPath == "/etc/kubernetes/pki" + "/" + MountedCerts()[i]
  {
    volumes, mounts := [], [];
    for k := 0 to |MountedCerts()|
      invariant |volumes| == |mounts| == k
      invariant forall i | 0 <= i < k ::
                  && volumes[i].secretName == volumes[i].name == mounts[i].name
                     == SecretName(cluster, MountedCerts()[i])
                  && mounts[i].mountPath == CERTIFICATES_DIR + "/" + MountedCerts()[i]
    {
      var certName := SecretName(cluster, MountedCerts()[k]);
      volumes := volumes + [Volume(certName, certName)];
      mounts := mounts + [VolumeMount(certName, CERTIFICATES_DIR + "/" + MountedCerts()[k])];
    }
  }

  // The secret names a pod refers to, as GetSecretVolumes lists them.
  function MountedSecrets(cluster: string): (r: seq<string>)
    ensures |r| == |MountedCerts()| && forall i | 0 <= i < |r| :: r[i] == SecretName(cluster, MountedCerts()[i])
  {
    seq(|MountedCerts()|, i requires 0 <= i < |MountedCerts()| => SecretName(cluster, MountedCerts()[i]))
  }
}
