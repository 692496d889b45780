/** The request configuration of each catalog entry: which subjectAltName list it
    carries, which extended key usage it asks for and what its subject is. */
module LeafDocs {
  import opened Common
  import opened IniConfig
  import opened Subject
  import opened Topology
  import opened San
  import opened Text
  import opened CsrConf
  import opened Plan

  /** The six subject fields are all in the template, as `_init_kwargs` guarantees. */
  predicate FullTemplate(kwargs: map<string, string>) {
    && "country" in kwargs && "state" in kwargs && "city" in kwargs
    && "organization" in kwargs && "organization_unit" in kwargs && "common_name" in kwargs
  }

  lemma InitKwargsFull(given: map<string, string>)
    ensures FullTemplate(InitKwargs(given))
  {
    assert "country" in Defaults && "state" in Defaults && "city" in Defaults;
    assert "organization" in Defaults && "organization_unit" in Defaults && "common_name" in Defaults;
  }

  /** Any leaf: the subject has the catalog's CN and, when the catalog names one, its O;
      the extended key usage follows the kind; there is an `alt_names` section exactly
      when the leaf has subject alternative names. */
  lemma LeafDocFacts(s: Settings, l: Leaf)
    requires FullTemplate(s.kwargs) && l.cn != ""
    ensures Items(LeafDoc(s, l), "req_distinguished_name") == [
      ("C", s.kwargs["country"]),
      ("ST", s.kwargs["state"]),
      ("L", s.kwargs["city"]),
      ("O", if Truthy(l.org) then l.org.value else s.kwargs["organization"]),
      ("OU", s.kwargs["organization_unit"]),
      ("CN", l.cn)
    ]
    ensures Get(LeafDoc(s, l), "v3_ext", "extendedKeyUsage") == Some(ExtendedKeyUsage(l.kind))
    ensures HasSection(LeafDoc(s, l), "alt_names") <==> AltNamesOf(s, l.san) != []
  {
    var alt := AltNamesOf(s, l.san);
    CsrReqAndSubject(s.kwargs, Some(l.cn), l.org, l.kind, alt);
    CsrSubjectOfFullTemplate(s.kwargs, Some(l.cn), l.org);
    CsrExtendedKeyUsage(s.kwargs, Some(l.cn), l.org, l.kind, alt);
    CsrHasAltNames(s.kwargs, Some(l.cn), l.org, l.kind, alt);
  }

  /** A leaf with subject alternative names lists them, labelled, in `alt_names`, and
      both extension sections point at them. */
  lemma LeafAltNames(s: Settings, l: Leaf, dns: seq<string>, ips: seq<string>)
    requires AltNamesOf(s, l.san) == AltNames(dns, ips) && dns != []
    ensures Items(LeafDoc(s, l), "alt_names") == AltNames(dns, ips)
    ensures Get(LeafDoc(s, l), "v3_ext", "subjectAltName") == Some("@alt_names")
    ensures Get(LeafDoc(s, l), "req_ext", "subjectAltName") == Some("@alt_names")
  {
    var alt := AltNames(dns, ips);
    AltNamesKeysDistinct(dns, ips);
    CsrAltNames(s.kwargs, Some(l.cn), l.org, l.kind, alt);
    CsrV3SubjectAltName(s.kwargs, Some(l.cn), l.org, l.kind, alt);
    CsrReqExtSubjectAltName(s.kwargs, Some(l.cn), l.org, l.kind, alt);
  }

  /** The etcd server and peer certificates carry the same names: `localhost` and the
      master hostnames, `127.0.0.1`, `::1` and the master IPs; they are for both server
      and client authentication. */
  lemma EtcdServerAndPeer(s: Settings)
    ensures Items(LeafDoc(s, EtcdServer), "alt_names")
         == Items(LeafDoc(s, EtcdPeer), "alt_names")
         == AltNames(["localhost"] + s.topo.dnsList, ["127.0.0.1", "::1"] + s.topo.ipaddrList)
    ensures Get(LeafDoc(s, EtcdServer), "v3_ext", "extendedKeyUsage") == Some("serverAuth,clientAuth")
    ensures Get(LeafDoc(s, EtcdPeer), "v3_ext", "extendedKeyUsage") == Some("serverAuth,clientAuth")
  {
    var dns, ips := EtcdDns(s.topo), EtcdIps(s.topo);
    LeafAltNames(s, EtcdServer, dns, ips);
    LeafAltNames(s, EtcdPeer, dns, ips);
    CsrExtendedKeyUsage(s.kwargs, Some("kube-etcd"), None, None, AltNames(dns, ips));
    CsrExtendedKeyUsage(s.kwargs, Some("kube-etcd-peer"), None, None, AltNames(dns, ips));
  }

  /** The API server certificate carries the five in-cluster names and the master
      hostnames, then the service IP, the master IPs and the advertise addresses; it is
      for server authentication only. */
  lemma ApiserverCert(s: Settings)
    ensures Items(LeafDoc(s, Apiserver), "alt_names")
         == AltNames(KubernetesNames + s.topo.dnsList, ApiserverIps(s.subnet, s.topo))
    ensures Get(LeafDoc(s, Apiserver), "v3_ext", "extendedKeyUsage") == Some("serverAuth")
  {
    var dns, ips := ApiserverDns(s.topo), ApiserverIps(s.subnet, s.topo);
    LeafAltNames(s, Apiserver, dns, ips);
    CsrExtendedKeyUsage(s.kwargs, Some("kube-apiserver"), None, Some("server"), AltNames(dns, ips));
  }

  /** A client certificate without names: no `alt_names` section, no `subjectAltName`
      line, client authentication only. */
  predicate PlainClient(doc: Config) {
    && !HasSection(doc, "alt_names")
    && Get(doc, "v3_ext", "subjectAltName") == None
    && Get(doc, "req_ext", "subjectAltName") == None
    && Get(doc, "v3_ext", "extendedKeyUsage") == Some("clientAuth")
  }

  lemma ClientDoc(s: Settings, l: Leaf)
    requires l.san == NoSan && l.kind == Some("client")
    ensures PlainClient(LeafDoc(s, l))
  {
    CsrHasAltNames(s.kwargs, Some(l.cn), l.org, l.kind, []);
    CsrV3SubjectAltName(s.kwargs, Some(l.cn), l.org, l.kind, []);
    CsrReqExtSubjectAltName(s.kwargs, Some(l.cn), l.org, l.kind, []);
    CsrExtendedKeyUsage(s.kwargs, Some(l.cn), l.org, l.kind, []);
  }

  /** The etcd health-check client, the API server's etcd and kubelet clients, the
      front-proxy client and the three kubeconfig users are plain clients. */
  lemma ClientCerts(s: Settings)
    ensures PlainClient(LeafDoc(s, EtcdHealthcheck)) && PlainClient(LeafDoc(s, ApiserverEtcdClient))
    ensures PlainClient(LeafDoc(s, ApiserverKubeletClient)) && PlainClient(LeafDoc(s, FrontProxyClient))
    ensures PlainClient(LeafDoc(s, Admin.leaf)) && PlainClient(LeafDoc(s, ControllerManager.leaf))
    ensures PlainClient(LeafDoc(s, Scheduler.leaf))
  {
    ClientDoc(s, EtcdHealthcheck);
    ClientDoc(s, ApiserverEtcdClient);
    ClientDoc(s, ApiserverKubeletClient);
    ClientDoc(s, FrontProxyClient);
    ClientDoc(s, Admin.leaf);
    ClientDoc(s, ControllerManager.leaf);
    ClientDoc(s, Scheduler.leaf);
  }

  /** The API server's etcd and kubelet clients and the admin user are in the
      `system:masters` group, whatever the template's organization. */
  lemma MastersGroup(s: Settings, l: Leaf)
    requires FullTemplate(s.kwargs)
    requires l in {ApiserverEtcdClient, ApiserverKubeletClient, Admin.leaf}
    ensures Get(LeafDoc(s, l), "req_distinguished_name", "O") == Some("system:masters")
  {
    LeafDocFacts(s, l);
    var doc := LeafDoc(s, l);
    var dn := Items(doc, "req_distinguished_name");
    assert doc[1].name == "req_distinguished_name";
    assert dn[3] == ("O", "system:masters");
    FindAt(dn, 3);
  }

  /** No value the settings supply contains `%`: the subject template, the master
      hostnames and IPs, the service subnet and the advertise addresses. */
  predicate PercentFree(s: Settings) {
    && (forall k :: k in s.kwargs ==> '%' !in s.kwargs[k])
    && (forall x :: x in s.topo.dnsList ==> '%' !in x)
    && (forall x :: x in s.topo.ipaddrList ==> '%' !in x)
    && '%' !in s.subnet
    && (s.topo.internal.Some? ==> '%' !in s.topo.internal.value)
    && (s.topo.external.Some? ==> '%' !in s.topo.external.value)
  }

  /** The names and addresses of every subjectAltName list come from the settings and
      from fixed text without `%`. */
  lemma AltNamesOfPlain(s: Settings, k: SanKind)
    requires PercentFree(s)
    ensures forall i :: 0 <= i < |AltNamesOf(s, k)| ==> '%' !in AltNamesOf(s, k)[i].1
  {
    var t := s.topo;
    match k
    case NoSan =>
    case EtcdSan =>
      AltNamesPlain(EtcdDns(t), EtcdIps(t));
    case ApiserverSan =>
      var dns, ips := ApiserverDns(t), ApiserverIps(s.subnet, t);
      var p := BeforeLast(s.subnet, '.');
      assert '%' !in p by {
        assert forall j :: 0 <= j < |p| ==> p[j] == s.subnet[j];
      }
      assert '%' !in ServiceIp(s.subnet);
      assert forall x :: x in KubernetesNames ==> '%' !in x;
      AltNamesPlain(dns, ips);
  }

  /** Under settings without `%`, `set` accepts every leaf's request. */
  lemma LeafAccepted(s: Settings, l: Leaf)
    requires PercentFree(s)
    ensures Interpolatable(LeafRequest(s, l))
  {
    DnEntriesPlain(s.kwargs, Some(l.cn), l.org, DnFields);
    PlainValuesAccepted(DnEntries(s.kwargs, Some(l.cn), l.org, DnFields));
    AltNamesOfPlain(s, l.san);
    PlainValuesAccepted(AltNamesOf(s, l.san));
  }

  /** Settings without `%` are accepted by every leaf. */
  lemma LeavesPercentFree(s: Settings)
    requires PercentFree(s)
    ensures LeavesAccepted(s, Leaves, |Leaves|)
  {
    forall i | 0 <= i < |Leaves| ensures Interpolatable(LeafRequest(s, Leaves[i])) {
      LeafAccepted(s, Leaves[i]);
    }
    LeavesAcceptedEach(s, Leaves, |Leaves|);
  }

  /** Settings without `%` are accepted by every kubeconfig user. */
  lemma UsersPercentFree(s: Settings)
    requires PercentFree(s)
    ensures UsersAccepted(s, Users, |Users|)
  {
    forall i | 0 <= i < |Users| ensures Interpolatable(LeafRequest(s, Users[i].leaf)) {
      LeafAccepted(s, Users[i].leaf);
    }
    UsersAcceptedEach(s, Users, |Users|);
  }

  /** Settings without `%` are accepted throughout, so the whole plan runs. */
  lemma PercentFreeAccepted(s: Settings)
    requires PercentFree(s)
    ensures PlanAccepted(s)
  {
    LeavesPercentFree(s);
    UsersPercentFree(s);
  }

  /** An organization such as `100%` in the template stops the plan at the etcd server
      certificate, whose subject takes its organization from the template. */
  lemma PercentOrganizationStopsPlan(fs: set<File>, s: Settings, show: bool)
    requires FullTemplate(s.kwargs) && s.kwargs["organization"] == "100%"
    ensures !Exec(fs, MainSteps(s, show)).0
  {
    var dn := DnEntries(s.kwargs, Some(EtcdServer.cn), EtcdServer.org, DnFields);
    CsrSubjectOfFullTemplate(s.kwargs, Some(EtcdServer.cn), EtcdServer.org);
    assert dn[3] == ("O", "100%");
    PercentExamplesRefused();
    assert !Interpolatable(LeafRequest(s, Leaves[0]));
    LeavesAcceptedEach(s, Leaves, |Leaves|);
    PlanExec(fs, s, show);
  }

  /** A master registered by an IPv6 address with a zone index, such as `fe80::1%eth0`,
      stops the plan at the etcd server certificate, which lists every master IP. */
  lemma ZoneIndexStopsPlan(fs: set<File>, s: Settings, show: bool)
    requires "fe80::1%eth0" in s.topo.ipaddrList
    ensures !Exec(fs, MainSteps(s, show)).0
  {
    var dns, ips := EtcdDns(s.topo), EtcdIps(s.topo);
    var alt := AltNames(dns, ips);
    AltNamesLayout(dns, ips);
    var k :| 0 <= k < |s.topo.ipaddrList| && s.topo.ipaddrList[k] == "fe80::1%eth0";
    assert ips[2 + k] == "fe80::1%eth0";
    assert alt[|dns| + (2 + k)].1 == "fe80::1%eth0";
    PercentExamplesRefused();
    assert !Accepted(alt);
    assert !Interpolatable(LeafRequest(s, Leaves[0]));
    LeavesAcceptedEach(s, Leaves, |Leaves|);
    PlanExec(fs, s, show);
  }

  /** The template's `common_name` reaches no certificate: every request passes a
      non-empty common name, which overrides it, so the request configuration and its
      acceptance are the same whatever the template holds there. */
  lemma TemplateCommonNameUnused(s: Settings, v: string, l: Leaf)
    requires "common_name" in s.kwargs && l.cn != ""
    ensures LeafDoc(s.(kwargs := s.kwargs["common_name" := v]), l) == LeafDoc(s, l)
    ensures Interpolatable(LeafRequest(s.(kwargs := s.kwargs["common_name" := v]), l))
        <==> Interpolatable(LeafRequest(s, l))
  {
    assert forall i :: 0 <= i < |DnFields| && DnFields[i].1 == "common_name" ==> i == 5;
    DnEntriesTemplateCn(s.kwargs, Some(l.cn), l.org, DnFields, v);
  }

  /** Whether the plan runs does not depend on the template's `common_name`. */
  lemma TemplateCommonNamePlan(s: Settings, v: string)
    requires "common_name" in s.kwargs
    ensures PlanAccepted(s.(kwargs := s.kwargs["common_name" := v])) <==> PlanAccepted(s)
  {
    var s' := s.(kwargs := s.kwargs["common_name" := v]);
    forall i | 0 <= i < |Leaves|
      ensures Interpolatable(LeafRequest(s', Leaves[i])) <==> Interpolatable(LeafRequest(s, Leaves[i]))
    {
      TemplateCommonNameUnused(s, v, Leaves[i]);
    }
    forall i | 0 <= i < |Users|
      ensures Interpolatable(LeafRequest(s', Users[i].leaf)) <==> Interpolatable(LeafRequest(s, Users[i].leaf))
    {
      TemplateCommonNameUnused(s, v, Users[i].leaf);
    }
    LeavesAcceptedEach(s, Leaves, |Leaves|);
    LeavesAcceptedEach(s', Leaves, |Leaves|);
    UsersAcceptedEach(s, Users, |Users|);
    UsersAcceptedEach(s', Users, |Users|);
  }

  /** A `%` in the template's `common_name` alone, such as `50%`, does not stop the plan. */
  lemma PercentCommonNameAccepted(s: Settings)
    requires "common_name" in s.kwargs
    requires PercentFree(s.(kwargs := s.kwargs["common_name" := ""]))
    ensures PlanAccepted(s)
  {
    var s0 := s.(kwargs := s.kwargs["common_name" := ""]);
    PercentFreeAccepted(s0);
    TemplateCommonNamePlan(s0, s.kwargs["common_name"]);
    assert s0.kwargs["common_name" := s.kwargs["common_name"]] == s.kwargs;
  }
}
