/** `CertsGenerator`: the settings fixed at construction, the master registry its
    setters update, and the generation methods, each of which runs its openssl and file
    steps on a `Disk` in the order the source does. Every method is specified by the
    functions of modules Topology and Plan; the properties proved about those carry over. */
module Generator {
  import opened Common
  import T = Topology
  import opened Subject
  import opened IniConfig
  import opened CsrConf
  import opened San
  import opened Kubeconfig
  import opened Plan

  /** The files openssl and the generator's writes act on. */
  class Disk {
    var files: set<File>

    constructor(files0: set<File>)
      ensures files == files0
    {
      files := files0;
    }

    /** Runs `step` after the steps `done` were run from `fs0`, unless one of those
        failed: the exception of a failed step skips every later one. */
    method Run(step: Step, ok0: bool, ghost fs0: set<File>, ghost done: seq<Step>) returns (ok: bool)
      requires (ok0, files) == Exec(fs0, done)
      modifies this
      ensures (ok, files) == Exec(fs0, done + [step])
    {
      ExecAppend(fs0, done, [step]);
      ghost var one := [step];
      assert one[1..] == [];
      if !ok0 {
        ok := false;
      } else {
        var r := Apply(files, step);
        if r.Some? {
          files := r.value;
          ok := true;
        } else {
          ok := false;
        }
      }
    }
  }

  class CertsGenerator {
    const certsExpire: int
    const k8sRootDir: string
    const serviceSubnet: string
    const kwargs: map<string, string>
    var dnsList: seq<string>
    var ipaddrList: seq<string>
    var advertiseExternal: Option<string>
    var advertiseInternal: Option<string>
    const disk: Disk

    /** The registry fields. */
    function Topo(): T.Topology
      reads this
    {
      T.Topology(dnsList, ipaddrList, advertiseInternal, advertiseExternal)
    }

    /** Everything the generation steps depend on. */
    function Setup(): Settings
      reads this
    {
      Settings(certsExpire, serviceSubnet, kwargs, Topo())
    }

    ghost predicate Valid()
      reads this
    {
      T.Valid(Topo())
    }

    /** `__init__`: the subject template gets its defaults, the registry starts empty.
        The settings default as in the source; the disk stands for the file system. */
    constructor(disk: Disk, certsExpire: int := 3650, k8sRootDir: string := "/etc/kubernetes",
                serviceSubnet: string := "10.96.0.0/12", given: map<string, string> := map[])
      ensures this.certsExpire == certsExpire && this.k8sRootDir == k8sRootDir
      ensures this.serviceSubnet == serviceSubnet && this.kwargs == InitKwargs(given)
      ensures this.disk == disk
      ensures Topo() == T.Empty && Valid()
    {
      this.certsExpire := certsExpire;
      this.k8sRootDir := k8sRootDir;
      this.serviceSubnet := serviceSubnet;
      this.kwargs := InitKwargs(given);
      this.dnsList := [];
      this.ipaddrList := [];
      this.advertiseExternal := None;
      this.advertiseInternal := None;
      this.disk := disk;
    }

    /** `register_master(ipaddr, hostname)`. */
    method RegisterMaster(ipaddr: string, hostname: string)
      modifies this
      ensures Topo() == T.RegisterMaster(old(Topo()), ipaddr, hostname)
      ensures old(Valid()) ==> Valid()
    {
      if ipaddrList == [] {
        advertiseInternal := Some(ipaddr);
      }
      if ipaddr !in ipaddrList {
        ipaddrList := ipaddrList + [ipaddr];
      }
      if hostname !in dnsList {
        dnsList := dnsList + [hostname];
      }
    }

    /** `advertise_external_ipaddr(ipaddr)`. */
    method AdvertiseExternalIpaddr(ipaddr: string)
      modifies this
      ensures Topo() == T.AdvertiseExternal(old(Topo()), ipaddr)
      ensures old(Valid()) ==> Valid()
    {
      advertiseExternal := Some(ipaddr);
    }

    /** `advertise_internal_ipaddr(ipaddr)`. */
    method AdvertiseInternalIpaddr(ipaddr: string)
      modifies this
      ensures Topo() == T.AdvertiseInternal(old(Topo()), ipaddr)
      ensures old(Valid()) ==> Valid()
    {
      advertiseInternal := Some(ipaddr);
    }

    /** The name lists and `enumerate` loops of `generate_certs_etcd` and
        `generate_certs_etcd_peer`. */
    method EtcdAltNames() returns (altNames: Options)
      ensures altNames == AltNames(EtcdDns(Topo()), EtcdIps(Topo()))
    {
      var dns := ["localhost"] + dnsList;
      var ips := ["127.0.0.1", "::1"] + ipaddrList;
      altNames := BuildAltNames(dns, ips);
    }

    /** The name lists and `enumerate` loops of `generate_certs_apiserver`. */
    method ApiserverAltNames() returns (altNames: Options)
      ensures altNames == AltNames(ApiserverDns(Topo()), ApiserverIps(serviceSubnet, Topo()))
    {
      var dns := KubernetesNames + dnsList;
      var ips := [ServiceIp(serviceSubnet)] + ipaddrList;
      if Truthy(advertiseInternal) {
        ips := ips + [advertiseInternal.value];
      }
      if Truthy(advertiseExternal) {
        ips := ips + [advertiseExternal.value];
      }
      assert ips == ApiserverIps(serviceSubnet, Topo());
      altNames := BuildAltNames(dns, ips);
    }

    /** `generator_ca(path, name, subject)`. */
    method GeneratorCa(path: Dir, name: string, subject: string, show: bool) returns (ok: bool)
      modifies disk
      ensures (ok, disk.files) == Exec(old(disk.files), CaSteps(Ca(path, name, subject), certsExpire, show))
    {
      ghost var fs0 := disk.files;
      var key, crt := File(path, name, "key"), File(path, name, "crt");
      var s1, s2 := GenRsaKey(key), SelfSign(key, crt, subject, certsExpire);
      ok := disk.Run(s1, true, fs0, []);
      assert [] + [s1] == [s1];
      ok := disk.Run(s2, ok, fs0, [s1]);
      assert [s1] + [s2] == [s1, s2];
      if show {
        ok := ShowCerts(crt, ok, fs0, [s1, s2]);
        assert [s1, s2] + [ShowCert(crt)] == [s1, s2, ShowCert(crt)];
      } else {
        assert [s1, s2] + [] == [s1, s2];
      }
    }

    /** `show_certs`: prints the certificate, which must exist. */
    method ShowCerts(crt: File, ok0: bool, ghost fs0: set<File>, ghost done: seq<Step>) returns (ok: bool)
      requires (ok0, disk.files) == Exec(fs0, done)
      modifies disk
      ensures (ok, disk.files) == Exec(fs0, done + [ShowCert(crt)])
    {
      ok := disk.Run(ShowCert(crt), ok0, fs0, done);
    }

    /** `generate_ca_all`. */
    method GenerateCaAll(show: bool) returns (ok: bool)
      modifies disk
      ensures (ok, disk.files) == Exec(old(disk.files), CasSteps(Cas, certsExpire, show))
    {
      ghost var fs0 := disk.files;
      ghost var a := CaSteps(Cas[0], certsExpire, show);
      ghost var b := CaSteps(Cas[1], certsExpire, show);
      ghost var c := CaSteps(Cas[2], certsExpire, show);
      ok := GeneratorCa(Pki, "ca", "/CN=kubernetes-ca", show);
      if ok {
        ok := GeneratorCa(PkiEtcd, "ca", "/CN=etcd-ca", show);
      }
      ExecAppend(fs0, a, b);
      if ok {
        ok := GeneratorCa(Pki, "front-proxy-ca", "/CN=kubernetes-front-proxy-ca", show);
      }
      ExecAppend(fs0, a + b, c);
      CasStepsListed(certsExpire, show);
    }

    /** `generate_sa_all` and `generator_sa`: an EC key and its public half. */
    method GenerateSaAll() returns (ok: bool)
      modifies disk
      ensures (ok, disk.files) == Exec(old(disk.files), SaSteps)
    {
      ghost var fs0 := disk.files;
      ok := disk.Run(GenEcKey(SaKey), true, fs0, []);
      assert [] + [GenEcKey(SaKey)] == [GenEcKey(SaKey)];
      ok := disk.Run(ExportEcPublic(SaKey, SaPub), ok, fs0, [GenEcKey(SaKey)]);
    }

    /** `generator_csr_conf(path, name, ...)`: builds the configuration `conf` and writes
        it to `{path}/{name}.conf`. When `set` refuses a value the build raises and
        nothing is written. */
    method GeneratorCsrConf(path: Dir, name: string, commonName: Option<string>,
                            organization: Option<string>, kind: Option<string>, altNames: Options)
      returns (ok: bool, conf: Config)
      modifies disk
      ensures ok <==> CsrAccepted(kwargs, commonName, organization, altNames)
      ensures ok ==> conf == CsrDocument(kwargs, commonName, organization, kind, altNames)
      ensures (ok, disk.files)
           == Exec(old(disk.files),
                   [WriteCsrConf(File(path, name, "conf"), Request(kwargs, commonName, organization, kind, altNames))])
    {
      var step := WriteCsrConf(File(path, name, "conf"), Request(kwargs, commonName, organization, kind, altNames));
      assert [step][1..] == [];
      ok, conf := BuildCsrConf(kwargs, commonName, organization, kind, altNames);
      if ok {
        ok := disk.Run(step, true, disk.files, []);
        assert [] + [step] == [step];
      }
    }

    /** `generator_certs(path, name, ca_path, ca_name, ssl_path)`. */
    method GeneratorCerts(path: Dir, name: string, caPath: Dir, caName: string, sslPath: Dir, show: bool)
      returns (ok: bool)
      modifies disk
      ensures (ok, disk.files) == Exec(old(disk.files), CertSteps(path, name, caPath, caName, sslPath, certsExpire, show))
    {
      ghost var fs0 := disk.files;
      var key, conf := File(path, name, "key"), File(sslPath, name, "conf");
      var csr, crt := File(sslPath, name, "csr"), File(path, name, "crt");
      var s1 := GenRsaKey(key);
      var s2 := MakeCsr(key, conf, csr);
      var s3 := SignCsr(csr, File(caPath, caName, "crt"), File(caPath, caName, "key"), conf, crt, certsExpire);
      ok := disk.Run(s1, true, fs0, []);
      assert [] + [s1] == [s1];
      ok := disk.Run(s2, ok, fs0, [s1]);
      assert [s1] + [s2] == [s1, s2];
      ok := disk.Run(s3, ok, fs0, [s1, s2]);
      assert [s1, s2] + [s3] == [s1, s2, s3];
      if show {
        ok := ShowCerts(crt, ok, fs0, [s1, s2, s3]);
        assert [s1, s2, s3] + [ShowCert(crt)] == [s1, s2, s3, ShowCert(crt)];
      } else {
        assert [s1, s2, s3] + [] == [s1, s2, s3];
      }
    }

    /** The body shared by the `generate_certs_*` methods and the first half of the
        `generate_cluster_config_*` methods: the leaf's request configuration, with its
        names when it has any, then its key, request and certificate. */
    method GenerateLeaf(l: Leaf, show: bool) returns (ok: bool)
      modifies disk
      ensures (ok, disk.files) == Exec(old(disk.files), LeafSteps(l, LeafRequest(Setup(), l), certsExpire, show))
    {
      ghost var fs0 := disk.files;
      var altNames: Options := [];
      if l.san == EtcdSan {
        altNames := EtcdAltNames();
      } else if l.san == ApiserverSan {
        altNames := ApiserverAltNames();
      }
      var conf;
      ok, conf := GeneratorCsrConf(l.sslDir, l.name, Some(l.cn), l.org, l.kind, altNames);
      if ok {
        ok := GeneratorCerts(l.outDir, l.name, l.caDir, l.caName, l.sslDir, show);
      }
      ExecAppend(fs0, [WriteCsrConf(ConfFile(l), LeafRequest(Setup(), l))],
                 CertSteps(l.outDir, l.name, l.caDir, l.caName, l.sslDir, certsExpire, show));
    }

    method GenerateCertsEtcd(show: bool) returns (ok: bool)
      modifies disk
      ensures (ok, disk.files) == Exec(old(disk.files), LeafSteps(EtcdServer, LeafRequest(Setup(), EtcdServer), certsExpire, show))
    {
      ok := GenerateLeaf(EtcdServer, show);
    }

    method GenerateCertsEtcdPeer(show: bool) returns (ok: bool)
      modifies disk
      ensures (ok, disk.files) == Exec(old(disk.files), LeafSteps(EtcdPeer, LeafRequest(Setup(), EtcdPeer), certsExpire, show))
    {
      ok := GenerateLeaf(EtcdPeer, show);
    }

    method GenerateCertsEtcdHealthcheck(show: bool) returns (ok: bool)
      modifies disk
      ensures (ok, disk.files)
           == Exec(old(disk.files), LeafSteps(EtcdHealthcheck, LeafRequest(Setup(), EtcdHealthcheck), certsExpire, show))
    {
      ok := GenerateLeaf(EtcdHealthcheck, show);
    }

    method GenerateCertsApiserverEtcd(show: bool) returns (ok: bool)
      modifies disk
      ensures (ok, disk.files)
           == Exec(old(disk.files), LeafSteps(ApiserverEtcdClient, LeafRequest(Setup(), ApiserverEtcdClient), certsExpire, show))
    {
      ok := GenerateLeaf(ApiserverEtcdClient, show);
    }

    method GenerateCertsApiserver(show: bool) returns (ok: bool)
      modifies disk
      ensures (ok, disk.files) == Exec(old(disk.files), LeafSteps(Apiserver, LeafRequest(Setup(), Apiserver), certsExpire, show))
    {
      ok := GenerateLeaf(Apiserver, show);
    }

    method GenerateApiserverKubelet(show: bool) returns (ok: bool)
      modifies disk
      ensures (ok, disk.files)
           == Exec(old(disk.files), LeafSteps(ApiserverKubeletClient, LeafRequest(Setup(), ApiserverKubeletClient), certsExpire, show))
    {
      ok := GenerateLeaf(ApiserverKubeletClient, show);
    }

    method GenerateFrontProxyKubelet(show: bool) returns (ok: bool)
      modifies disk
      ensures (ok, disk.files)
           == Exec(old(disk.files), LeafSteps(FrontProxyClient, LeafRequest(Setup(), FrontProxyClient), certsExpire, show))
    {
      ok := GenerateLeaf(FrontProxyClient, show);
    }

    /** `generate_certs_all`: the seven leaves in catalog order. */
    method GenerateCertsAll(show: bool) returns (ok: bool)
      modifies disk
      ensures (ok, disk.files) == Exec(old(disk.files), LeavesSteps(Setup(), Leaves, |Leaves|, show))
    {
      ghost var fs0 := disk.files;
      ghost var s := Setup();
      ghost var l0 := LeafSteps(EtcdServer, LeafRequest(s, EtcdServer), certsExpire, show);
      ghost var l1 := LeafSteps(EtcdPeer, LeafRequest(s, EtcdPeer), certsExpire, show);
      ghost var l2 := LeafSteps(EtcdHealthcheck, LeafRequest(s, EtcdHealthcheck), certsExpire, show);
      ghost var l3 := LeafSteps(ApiserverEtcdClient, LeafRequest(s, ApiserverEtcdClient), certsExpire, show);
      ghost var l4 := LeafSteps(Apiserver, LeafRequest(s, Apiserver), certsExpire, show);
      ghost var l5 := LeafSteps(ApiserverKubeletClient, LeafRequest(s, ApiserverKubeletClient), certsExpire, show);
      ghost var l6 := LeafSteps(FrontProxyClient, LeafRequest(s, FrontProxyClient), certsExpire, show);
      ok := GenerateCertsEtcd(show);
      ghost var ok1, fs1 := ok, disk.files;
      if ok { ok := GenerateCertsEtcdPeer(show); }
      ExecThen(fs0, l0, l1, ok1, fs1, ok, disk.files);
      ok1, fs1 := ok, disk.files;
      if ok { ok := GenerateCertsEtcdHealthcheck(show); }
      ExecThen(fs0, l0 + l1, l2, ok1, fs1, ok, disk.files);
      ok1, fs1 := ok, disk.files;
      if ok { ok := GenerateCertsApiserverEtcd(show); }
      ExecThen(fs0, l0 + l1 + l2, l3, ok1, fs1, ok, disk.files);
      ok1, fs1 := ok, disk.files;
      if ok { ok := GenerateCertsApiserver(show); }
      ExecThen(fs0, l0 + l1 + l2 + l3, l4, ok1, fs1, ok, disk.files);
      ok1, fs1 := ok, disk.files;
      if ok { ok := GenerateApiserverKubelet(show); }
      ExecThen(fs0, l0 + l1 + l2 + l3 + l4, l5, ok1, fs1, ok, disk.files);
      ok1, fs1 := ok, disk.files;
      if ok { ok := GenerateFrontProxyKubelet(show); }
      ExecThen(fs0, l0 + l1 + l2 + l3 + l4 + l5, l6, ok1, fs1, ok, disk.files);
      LeavesStepsListed(s, show);
    }

    /** `generator_cluster_config(cert_name, conf_name, common_name)`: reads the
        Kubernetes CA certificate and the client certificate and key from `ssl`, and
        writes `{root}/{conf_name}.conf` pointing at the internal advertise address.
        `b64` gives the base64 text of a file's bytes as the read finds them; `data` is
        the text written, which the write step stores only when `ok`. */
    method GeneratorClusterConfig(certName: string, confName: string, commonName: string,
                                  b64: File -> string,
                                  ok0: bool, ghost fs0: set<File>, ghost done: seq<Step>)
      returns (ok: bool, data: string)
      requires (ok0, disk.files) == Exec(fs0, done)
      modifies disk
      ensures (ok, disk.files)
           == Exec(fs0, done + [WriteKubeconfig(KubeCaCrt, File(Ssl, certName, "crt"), File(Ssl, certName, "key"),
                                                File(Root, confName, "conf"), commonName,
                                                ApiServer(advertiseInternal))])
      ensures data == ClusterConfig(b64(KubeCaCrt), b64(File(Ssl, certName, "crt")),
                                    b64(File(Ssl, certName, "key")), commonName, advertiseInternal)
      ensures Valid() && ipaddrList != [] ==>
                advertiseInternal.Some? && ApiServer(advertiseInternal) == "https://" + advertiseInternal.value + ":6443"
    {
      var caCrt, crt, key := KubeCaCrt, File(Ssl, certName, "crt"), File(Ssl, certName, "key");
      var apiServer := "https://" + PyStr(advertiseInternal) + ":6443";
      data := Render(Fields(BytesStr(b64(caCrt)), apiServer, commonName, BytesStr(b64(crt)), BytesStr(b64(key))));
      ok := disk.Run(WriteKubeconfig(caCrt, crt, key, File(Root, confName, "conf"), commonName, apiServer),
                     ok0, fs0, done);
    }

    /** The body shared by the `generate_cluster_config_*` methods. */
    method GenerateClusterConfig(u: User, show: bool, b64: File -> string) returns (ok: bool)
      modifies disk
      ensures (ok, disk.files) == Exec(old(disk.files), UserSteps(Setup(), u, show))
    {
      ghost var fs0 := disk.files;
      ok := GenerateLeaf(u.leaf, show);
      var data;
      ok, data := GeneratorClusterConfig(u.leaf.name, u.conf, u.leaf.cn, b64, ok, fs0,
                                         LeafSteps(u.leaf, LeafRequest(Setup(), u.leaf), certsExpire, show));
    }

    method GenerateClusterConfigAdmin(show: bool, b64: File -> string) returns (ok: bool)
      modifies disk
      ensures (ok, disk.files) == Exec(old(disk.files), UserSteps(Setup(), Admin, show))
    {
      ok := GenerateClusterConfig(Admin, show, b64);
    }

    method GenerateClusterConfigControllerManager(show: bool, b64: File -> string) returns (ok: bool)
      modifies disk
      ensures (ok, disk.files) == Exec(old(disk.files), UserSteps(Setup(), ControllerManager, show))
    {
      ok := GenerateClusterConfig(ControllerManager, show, b64);
    }

    method GenerateClusterConfigScheduler(show: bool, b64: File -> string) returns (ok: bool)
      modifies disk
      ensures (ok, disk.files) == Exec(old(disk.files), UserSteps(Setup(), Scheduler, show))
    {
      ok := GenerateClusterConfig(Scheduler, show, b64);
    }

    /** `generate_cluster_config_all`. */
    method GenerateClusterConfigAll(show: bool, b64: File -> string) returns (ok: bool)
      modifies disk
      ensures (ok, disk.files) == Exec(old(disk.files), UsersSteps(Setup(), Users, |Users|, show))
    {
      ghost var fs0 := disk.files;
      ghost var s := Setup();
      ghost var ok1, fs1 := true, fs0;
      ok := GenerateClusterConfigAdmin(show, b64);
      UsersRun(fs0, s, Users, show, 0, Admin, ok1, fs1, ok, disk.files);
      ok1, fs1 := ok, disk.files;
      if ok { ok := GenerateClusterConfigControllerManager(show, b64); }
      UsersRun(fs0, s, Users, show, 1, ControllerManager, ok1, fs1, ok, disk.files);
      ok1, fs1 := ok, disk.files;
      if ok { ok := GenerateClusterConfigScheduler(show, b64); }
      UsersRun(fs0, s, Users, show, 2, Scheduler, ok1, fs1, ok, disk.files);
    }

    /** `clear`: removes the temporary `ssl` tree. */
    method Clear() returns (ok: bool)
      modifies disk
      ensures (ok, disk.files) == Exec(old(disk.files), [RemoveTree(Ssl)])
    {
      ok := disk.Run(RemoveTree(Ssl), true, disk.files, []);
      assert [] + [RemoveTree(Ssl)] == [RemoveTree(Ssl)];
    }

    /** The generation sequence `main` runs once the masters are registered: the CAs, the
        leaf certificates, the service-account keys, the kubeconfigs, then the clean-up.
        It succeeds exactly when `set` accepts every request configuration, and then
        leaves exactly the files it created outside `ssl` next to whatever was there
        before; otherwise it stops after the CAs, with nothing removed. `b64` stands for
        reading and base64-encoding a file. */
    method Bootstrap(show: bool, b64: File -> string) returns (ok: bool)
      modifies disk
      ensures (ok, disk.files) == Exec(old(disk.files), MainSteps(Setup(), show))
      ensures ok <==> PlanAccepted(Setup())
      ensures ok ==> disk.files == Cleared(old(disk.files) + Created(), Ssl)
      ensures !ok ==> old(disk.files) + CasFiles(Cas) <= disk.files
    {
      ghost var fs0 := disk.files;
      ghost var s := Setup();
      ghost var a := CasSteps(Cas, certsExpire, show);
      ghost var b := LeavesSteps(s, Leaves, |Leaves|, show);
      ghost var c := UsersSteps(s, Users, |Users|, show);
      ghost var d := [RemoveTree(Ssl)];
      ok := GenerateCaAll(show);
      ghost var ok1, fs1 := ok, disk.files;
      if ok { ok := GenerateCertsAll(show); }
      ExecThen(fs0, a, b, ok1, fs1, ok, disk.files);
      ok1, fs1 := ok, disk.files;
      if ok { ok := GenerateSaAll(); }
      ExecThen(fs0, a + b, SaSteps, ok1, fs1, ok, disk.files);
      ok1, fs1 := ok, disk.files;
      if ok { ok := GenerateClusterConfigAll(show, b64); }
      ExecThen(fs0, a + b + SaSteps, c, ok1, fs1, ok, disk.files);
      ok1, fs1 := ok, disk.files;
      if ok { ok := Clear(); }
      ExecThen(fs0, a + b + SaSteps + c, d, ok1, fs1, ok, disk.files);
      Reassociate(a, b, SaSteps, c, d);
      PlanExec(fs0, s, show);
    }
  }

  /** The CA stage is the three CAs' steps one after the other. */
  lemma CasStepsListed(days: int, show: bool)
    ensures CasSteps(Cas, days, show)
         == CaSteps(Cas[0], days, show) + CaSteps(Cas[1], days, show) + CaSteps(Cas[2], days, show)
  {
    var c0, c1 := Cas[..1], Cas[..2];
    assert c1[..1] == c0 && Cas[..|Cas| - 1] == c1 && c0[..0] == [];
    assert CasSteps(c0, days, show) == [] + CaSteps(Cas[0], days, show);
  }

  /** The leaf stage is the seven leaves' steps one after the other. */
  lemma LeavesStepsListed(s: Settings, show: bool)
    ensures LeavesSteps(s, Leaves, |Leaves|, show)
         == LeafSteps(EtcdServer, LeafRequest(s, EtcdServer), s.days, show)
            + LeafSteps(EtcdPeer, LeafRequest(s, EtcdPeer), s.days, show)
            + LeafSteps(EtcdHealthcheck, LeafRequest(s, EtcdHealthcheck), s.days, show)
            + LeafSteps(ApiserverEtcdClient, LeafRequest(s, ApiserverEtcdClient), s.days, show)
            + LeafSteps(Apiserver, LeafRequest(s, Apiserver), s.days, show)
            + LeafSteps(ApiserverKubeletClient, LeafRequest(s, ApiserverKubeletClient), s.days, show)
            + LeafSteps(FrontProxyClient, LeafRequest(s, FrontProxyClient), s.days, show)
  {
    var a0 := LeafSteps(EtcdServer, LeafRequest(s, EtcdServer), s.days, show);
    var a1 := LeafSteps(EtcdPeer, LeafRequest(s, EtcdPeer), s.days, show);
    var a2 := LeafSteps(EtcdHealthcheck, LeafRequest(s, EtcdHealthcheck), s.days, show);
    var a3 := LeafSteps(ApiserverEtcdClient, LeafRequest(s, ApiserverEtcdClient), s.days, show);
    var a4 := LeafSteps(Apiserver, LeafRequest(s, Apiserver), s.days, show);
    var a5 := LeafSteps(ApiserverKubeletClient, LeafRequest(s, ApiserverKubeletClient), s.days, show);
    var a6 := LeafSteps(FrontProxyClient, LeafRequest(s, FrontProxyClient), s.days, show);
    assert LeavesSteps(s, Leaves, 1, show) == [] + a0 == a0;
    assert LeavesSteps(s, Leaves, 2, show) == a0 + a1;
    assert LeavesSteps(s, Leaves, 3, show) == a0 + a1 + a2;
    assert LeavesSteps(s, Leaves, 4, show) == a0 + a1 + a2 + a3;
    assert LeavesSteps(s, Leaves, 5, show) == a0 + a1 + a2 + a3 + a4;
    assert LeavesSteps(s, Leaves, 6, show) == a0 + a1 + a2 + a3 + a4 + a5;
  }

  /** Running the first `k` users and then user `k` is running the first `k + 1`. */
  lemma UsersRun(fs0: set<File>, s: Settings, us: seq<User>, show: bool, k: nat, u: User,
                 ok1: bool, fs1: set<File>, ok2: bool, fs2: set<File>)
    requires k < |us| && us[k] == u
    requires (ok1, fs1) == Exec(fs0, UsersSteps(s, us, k, show))
    requires if ok1 then (ok2, fs2) == Exec(fs1, UserSteps(s, u, show)) else ok2 == ok1 && fs2 == fs1
    ensures (ok2, fs2) == Exec(fs0, UsersSteps(s, us, k + 1, show))
  {
    ExecThen(fs0, UsersSteps(s, us, k, show), UserSteps(s, u, show), ok1, fs1, ok2, fs2);
  }

  /** A step sequence run after another whose outcome is known: the second runs only when
      the first succeeded. */
  lemma ExecThen(fs0: set<File>, a: seq<Step>, b: seq<Step>, ok1: bool, fs1: set<File>, ok2: bool, fs2: set<File>)
    requires (ok1, fs1) == Exec(fs0, a)
    requires if ok1 then (ok2, fs2) == Exec(fs1, b) else ok2 == ok1 && fs2 == fs1
    ensures (ok2, fs2) == Exec(fs0, a + b)
  {
    ExecAppend(fs0, a, b);
  }

  lemma Reassociate(a: seq<Step>, b: seq<Step>, c: seq<Step>, d: seq<Step>, e: seq<Step>)
    ensures a + b + c + d + e == a + (b + (c + (d + e)))
  {
  }
}
