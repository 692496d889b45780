/** subjectAltName entries (section 4.2.1.6 of RFC 5280) as the generator writes them
    into the `alt_names` section of a CSR configuration: DNS names labelled `DNS.0`,
    `DNS.1`, ... followed by IP addresses labelled `IP.0`, `IP.1`, ..., each kind
    numbered from zero in list order. Also the name and address lists of the etcd
    server/peer certificates and of the API server certificate. */
module San {
  import opened Common
  import opened Text
  import opened IniConfig
  import opened Topology

  /** `for index, x in enumerate(xs): alt_names.append(('{prefix}{index}', x))`,
      one append at a time. */
  function Enumerated(prefix: string, xs: seq<string>): (r: Options) {
    if xs == [] then []
    else Enumerated(prefix, xs[..|xs| - 1]) + [(prefix + Decimal(|xs| - 1), xs[|xs| - 1])]
  }

  /** Entry `i` of the enumeration is labelled with `i` and carries `xs[i]`. */
  lemma {:induction false} EnumeratedAt(prefix: string, xs: seq<string>)
    ensures |Enumerated(prefix, xs)| == |xs|
    ensures forall i :: 0 <= i < |xs| ==> Enumerated(prefix, xs)[i] == (prefix + Decimal(i), xs[i])
  {
    if xs != [] {
      EnumeratedAt(prefix, xs[..|xs| - 1]);
    }
  }

  /** The `alt_names` list built from DNS names and IP addresses. */
  function AltNames(dns: seq<string>, ips: seq<string>): Options {
    Enumerated("DNS.", dns) + Enumerated("IP.", ips)
  }

  /** All DNS entries come first, labelled `DNS.0 .. DNS.(n-1)` in list order, then all
      IP entries, labelled `IP.0 .. IP.(m-1)` independently of the DNS numbering. */
  lemma AltNamesLayout(dns: seq<string>, ips: seq<string>)
    ensures |AltNames(dns, ips)| == |dns| + |ips|
    ensures forall i :: 0 <= i < |dns| ==> AltNames(dns, ips)[i] == ("DNS." + Decimal(i), dns[i])
    ensures forall j :: 0 <= j < |ips| ==> AltNames(dns, ips)[|dns| + j] == ("IP." + Decimal(j), ips[j])
  {
    EnumeratedAt("DNS.", dns);
    EnumeratedAt("IP.", ips);
  }

  /** The values of the list are the given names and addresses, so they are free of `%`
      when those are. */
  lemma AltNamesPlain(dns: seq<string>, ips: seq<string>)
    requires forall x :: x in dns ==> '%' !in x
    requires forall x :: x in ips ==> '%' !in x
    ensures forall i :: 0 <= i < |AltNames(dns, ips)| ==> '%' !in AltNames(dns, ips)[i].1
  {
    AltNamesLayout(dns, ips);
    var r := AltNames(dns, ips);
    forall i | 0 <= i < |r| ensures '%' !in r[i].1 {
      if i < |dns| {
        assert r[i].1 == dns[i];
      } else {
        assert r[i] == AltNames(dns, ips)[|dns| + (i - |dns|)];
        assert r[i].1 == ips[i - |dns|];
      }
    }
  }

  /** Two labels with the same prefix are equal only for the same index. */
  lemma LabelInjective(p: string, i: nat, j: nat)
    requires p + Decimal(i) == p + Decimal(j)
    ensures i == j
  {
    assert (p + Decimal(i))[|p|..] == Decimal(i);
    assert (p + Decimal(j))[|p|..] == Decimal(j);
    DecimalInjective(i, j);
  }

  /** No two labels coincide, so every `set` in the `alt_names` section adds a new key. */
  lemma AltNamesKeysDistinct(dns: seq<string>, ips: seq<string>)
    ensures KeysDistinct(AltNames(dns, ips))
  {
    var r := AltNames(dns, ips);
    AltNamesLayout(dns, ips);
    forall a, b | 0 <= a < b < |r| ensures r[a].0 != r[b].0 {
      if b < |dns| {
        if r[a].0 == r[b].0 { LabelInjective("DNS.", a, b); }
      } else if a >= |dns| {
        var i, j := a - |dns|, b - |dns|;
        assert r[a] == AltNames(dns, ips)[|dns| + i] && r[b] == AltNames(dns, ips)[|dns| + j];
        if r[a].0 == r[b].0 { LabelInjective("IP.", i, j); }
      } else {
        var k := b - |dns|;
        assert r[b] == AltNames(dns, ips)[|dns| + k];
        assert r[b].0 == "IP." + Decimal(k);
        assert r[a].0 == "DNS." + Decimal(a);
        assert r[a].0[0] == 'D' && r[b].0[0] == 'I';
      }
    }
  }

  /** The two `enumerate` loops of the SAN-building code. */
  method BuildAltNames(dns: seq<string>, ips: seq<string>) returns (alt: Options)
    ensures alt == AltNames(dns, ips)
  {
    alt := [];
    var i := 0;
    while i < |dns|
      invariant 0 <= i <= |dns|
      invariant alt == Enumerated("DNS.", dns[..i])
    {
      assert dns[..i + 1][..i] == dns[..i];
      alt := alt + [("DNS." + Decimal(i), dns[i])];
      i := i + 1;
    }
    assert dns[..i] == dns;
    var j := 0;
    while j < |ips|
      invariant 0 <= j <= |ips|
      invariant alt == Enumerated("DNS.", dns) + Enumerated("IP.", ips[..j])
    {
      assert ips[..j + 1][..j] == ips[..j];
      alt := alt + [("IP." + Decimal(j), ips[j])];
      j := j + 1;
    }
    assert ips[..j] == ips;
  }

  /** DNS names of the etcd server and peer certificates: `localhost`, then the
      hostnames of the masters in registration order. */
  function EtcdDns(t: Topology): seq<string> {
    ["localhost"] + t.dnsList
  }

  /** IP addresses of the etcd server and peer certificates: both loopback addresses,
      then the master IPs in registration order. */
  function EtcdIps(t: Topology): seq<string> {
    ["127.0.0.1", "::1"] + t.ipaddrList
  }

  /** The fixed in-cluster names of the API server. */
  const KubernetesNames: seq<string> := [
    "kubernetes",
    "kubernetes.default",
    "kubernetes.default.svc",
    "kubernetes.default.svc.cluster",
    "kubernetes.default.svc.cluster.local"
  ]

  /** `'.'.join([service_subnet.rsplit('.', 1)[0], '1'])`. */
  function ServiceIp(subnet: string): string {
    BeforeLast(subnet, '.') + ".1"
  }

  /** The service IP replaces whatever follows the last dot of the subnet text by `1`. */
  lemma ServiceIpReplacesLastField(p: string, t: string)
    requires '.' !in t
    ensures ServiceIp(p + "." + t) == p + ".1"
  {
    assert p + "." + t == p + ['.'] + t;
  }

  /** A subnet text without any dot is kept whole. */
  lemma ServiceIpWithoutDot(subnet: string)
    requires '.' !in subnet
    ensures ServiceIp(subnet) == subnet + ".1"
  {
  }

  /** The default service subnet gives the usual cluster IP. */
  lemma ServiceIpOfDefaultSubnet()
    ensures ServiceIp("10.96.0.0/12") == "10.96.0.1"
  {
    ServiceIpReplacesLastField("10.96.0", "0/12");
    assert "10.96.0" + "." + "0/12" == "10.96.0.0/12";
  }

  /** DNS names of the API server certificate: the five in-cluster names, then the
      hostnames of the masters in registration order. */
  function ApiserverDns(t: Topology): seq<string> {
    KubernetesNames + t.dnsList
  }

  /** IP addresses of the API server certificate: the service IP, the masters, then each
      advertise address that is set and non-empty. Nothing is de-duplicated. */
  function ApiserverIps(subnet: string, t: Topology): seq<string> {
    [ServiceIp(subnet)] + t.ipaddrList
    + (if Truthy(t.internal) then [t.internal.value] else [])
    + (if Truthy(t.external) then [t.external.value] else [])
  }

  /** Where each address sits in the API server's IP list. */
  lemma ApiserverIpsLayout(subnet: string, t: Topology)
    ensures var r := ApiserverIps(subnet, t);
      && |r| == 1 + |t.ipaddrList| + (if Truthy(t.internal) then 1 else 0) + (if Truthy(t.external) then 1 else 0)
      && r[0] == ServiceIp(subnet)
      && r[1..1 + |t.ipaddrList|] == t.ipaddrList
      && (Truthy(t.internal) ==> r[1 + |t.ipaddrList|] == t.internal.value)
      && (Truthy(t.external) ==> r[|r| - 1] == t.external.value)
  {
    var r := ApiserverIps(subnet, t);
    assert r[1..1 + |t.ipaddrList|] == t.ipaddrList;
  }

  /** An internal advertise address that is also a master IP is listed twice. */
  lemma InternalMasterListedTwice(subnet: string, t: Topology)
    requires Truthy(t.internal) && t.internal.value in t.ipaddrList
    ensures multiset(ApiserverIps(subnet, t))[t.internal.value] >= 2
  {
    var ip := t.internal.value;
    var rest := if Truthy(t.external) then [t.external.value] else [];
    assert ApiserverIps(subnet, t) == [ServiceIp(subnet)] + t.ipaddrList + [ip] + rest;
    assert multiset(t.ipaddrList)[ip] >= 1;
  }

  /** Two masters registered in order and no overrides: the first master's IP becomes
      the internal advertise address. */
  lemma TwoMasterTopology()
    ensures Run([Register("10.0.0.1", "m1"), Register("10.0.0.2", "m2")])
         == Topology(["m1", "m2"], ["10.0.0.1", "10.0.0.2"], Some("10.0.0.1"), None)
  {
    var calls := [Register("10.0.0.1", "m1"), Register("10.0.0.2", "m2")];
    assert calls[..1] == [Register("10.0.0.1", "m1")];
    assert calls[..1][..0] == [];
    assert Run(calls[..1]) == Topology(["m1"], ["10.0.0.1"], Some("10.0.0.1"), None);
    assert "10.0.0.2" != "10.0.0.1";
    assert "m2" != "m1";
  }

  /** With that topology and the default subnet, the first master's IP is listed once as
      a master and once as the internal advertise address. */
  lemma TwoMasterScenario()
    ensures var t := Run([Register("10.0.0.1", "m1"), Register("10.0.0.2", "m2")]);
      && ApiserverIps("10.96.0.0/12", t) == ["10.96.0.1", "10.0.0.1", "10.0.0.2", "10.0.0.1"]
      && ApiserverDns(t) == KubernetesNames + ["m1", "m2"]
      && EtcdIps(t) == ["127.0.0.1", "::1", "10.0.0.1", "10.0.0.2"]
  {
    TwoMasterTopology();
    ServiceIpOfDefaultSubnet();
  }
}
