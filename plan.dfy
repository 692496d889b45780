/** What the generator does to the file system, one openssl run or file write at a time,
    and in what order. A step reads some files and creates others; openssl, `open` and
    `rmtree` themselves are not modelled, only which files they need and leave behind.
    A step whose input files are missing fails (openssl exits with an error, which
    `subprocess.run(..., check=True)` turns into an exception; `open` raises), and
    nothing after it runs. */
module Plan {
  import opened Common
  import opened Topology
  import opened IniConfig
  import opened CsrConf
  import opened San
  import opened Kubeconfig

  /** The Kubernetes root directory and the four directories below it. */
  datatype Dir = Root | Pki | PkiEtcd | Ssl | SslEtcd

  function DirPath(root: string, d: Dir): string {
    match d
    case Root => root
    case Pki => root + "/pki"
    case PkiEtcd => root + "/pki/etcd"
    case Ssl => root + "/ssl"
    case SslEtcd => root + "/ssl/etcd"
  }

  /** `d` is `top` or lies below it. */
  predicate Under(d: Dir, top: Dir) {
    d == top || top == Root || (top == Pki && d == PkiEtcd) || (top == Ssl && d == SslEtcd)
  }

  /** A directory below another has the other's path and a `/` as a prefix of its path. */
  lemma UnderPath(root: string, d: Dir, top: Dir)
    requires Under(d, top) && d != top
    ensures DirPath(root, top) + "/" <= DirPath(root, d)
  {
    match top
    case Root =>
      assert DirPath(root, d) == root + "/" + DirPath(root, d)[|root| + 1..];
    case Pki =>
      assert DirPath(root, d) == root + "/pki" + "/" + "etcd";
    case Ssl =>
      assert DirPath(root, d) == root + "/ssl" + "/" + "etcd";
  }

  /** `{dir}/{name}.{ext}`. */
  datatype File = File(dir: Dir, name: string, ext: string)

  /** One openssl run, file write or tree removal. */
  datatype Step =
    | GenRsaKey(key: File)                                   // openssl genrsa -out key 2048
    | SelfSign(key: File, crt: File, subject: string, days: int)  // openssl req -x509 -new -nodes
    | GenEcKey(key: File)                                    // openssl ecparam -name secp521r1 -genkey
    | ExportEcPublic(key: File, pub: File)                   // openssl ec -pubout
    | WriteCsrConf(conf: File, req: Request)                 // csr_conf.write(f): Document(req)
    | MakeCsr(key: File, conf: File, csr: File)              // openssl req -new -config conf
    | SignCsr(csr: File, caCrt: File, caKey: File, conf: File, crt: File, days: int)
                                                             // openssl x509 -req -CAcreateserial
    | ShowCert(crt: File)                                    // openssl x509 -noout -text
    | WriteKubeconfig(caCrt: File, crt: File, key: File, out: File, cn: string, server: string)
    | RemoveTree(dir: Dir)                                   // shutil.rmtree(dir)

  /** `-CAcreateserial` keeps the serial number next to the CA certificate. */
  function SerialFile(caCrt: File): File {
    File(caCrt.dir, caCrt.name, "srl")
  }

  /** The files a step needs. */
  function Reads(s: Step): set<File> {
    match s
    case GenRsaKey(_) => {}
    case SelfSign(key, _, _, _) => {key}
    case GenEcKey(_) => {}
    case ExportEcPublic(key, _) => {key}
    case WriteCsrConf(_, _) => {}
    case MakeCsr(key, conf, _) => {key, conf}
    case SignCsr(csr, caCrt, caKey, conf, _, _) => {csr, caCrt, caKey, conf}
    case ShowCert(crt) => {crt}
    case WriteKubeconfig(caCrt, crt, key, _, _, _) => {caCrt, crt, key}
    case RemoveTree(_) => {}
  }

  /** The files a step creates or overwrites. */
  function Writes(s: Step): set<File> {
    match s
    case GenRsaKey(key) => {key}
    case SelfSign(_, crt, _, _) => {crt}
    case GenEcKey(key) => {key}
    case ExportEcPublic(_, pub) => {pub}
    case WriteCsrConf(conf, _) => {conf}
    case MakeCsr(_, _, csr) => {csr}
    case SignCsr(_, caCrt, _, _, crt, _) => {crt, SerialFile(caCrt)}
    case ShowCert(_) => {}
    case WriteKubeconfig(_, _, _, out, _, _) => {out}
    case RemoveTree(_) => {}
  }

  /** The files left after removing the tree at `top`. */
  function Cleared(fs: set<File>, top: Dir): (r: set<File>)
    ensures forall f :: f in r <==> f in fs && !Under(f.dir, top)
  {
    set f | f in fs && !Under(f.dir, top)
  }

  /** The files after one step, or `None` when one of its inputs is missing or, for a
      request configuration, when `set` refuses one of its values (the `ValueError` is
      raised while the document is built, before the file is opened). */
  function Apply(fs: set<File>, s: Step): (r: Option<set<File>>)
    ensures r.Some? <==> Reads(s) <= fs && (s.WriteCsrConf? ==> Interpolatable(s.req))
    ensures r.Some? && s.RemoveTree? ==> r.value == Cleared(fs, s.dir)
    ensures r.Some? && !s.RemoveTree? ==> r.value == fs + Writes(s)
  {
    if !(Reads(s) <= fs) then None
    else if s.WriteCsrConf? && !Interpolatable(s.req) then None
    else if s.RemoveTree? then Some(Cleared(fs, s.dir))
    else Some(fs + Writes(s))
  }

  /** Runs the steps in order: whether all of them succeeded, and the files left behind
      (the exception stops the run at the first failing step). */
  function Exec(fs: set<File>, steps: seq<Step>): (bool, set<File>)
    decreases |steps|
  {
    if steps == [] then (true, fs)
    else
      match Apply(fs, steps[0])
      case None => (false, fs)
      case Some(fs') => Exec(fs', steps[1..])
  }

  /** Running two step lists one after the other is running their concatenation. */
  lemma {:induction false} ExecAppend(fs: set<File>, a: seq<Step>, b: seq<Step>)
    ensures Exec(fs, a + b) == if Exec(fs, a).0 then Exec(Exec(fs, a).1, b) else Exec(fs, a)
    decreases |a|
  {
    if a != [] {
      assert a + b != [] && (a + b)[0] == a[0];
      assert (a + b)[1..] == a[1..] + b;
      var r := Apply(fs, a[0]);
      if r.Some? {
        ExecAppend(r.value, a[1..], b);
      } else {
        assert Exec(fs, a + b) == (false, fs);
      }
    } else {
      assert a + b == b;
    }
  }

  /** A first step whose inputs are present adds its outputs and hands over to the rest. */
  lemma ExecFirst(fs: set<File>, steps: seq<Step>)
    requires steps != [] && Reads(steps[0]) <= fs && !steps[0].RemoveTree?
    requires steps[0].WriteCsrConf? ==> Interpolatable(steps[0].req)
    ensures Exec(fs, steps) == Exec(fs + Writes(steps[0]), steps[1..])
  {
  }

  /** A certificate authority: its directory, file name and subject. */
  datatype Ca = Ca(dir: Dir, name: string, subject: string)

  /** `generate_ca_all`: the Kubernetes CA, the etcd CA and the front-proxy CA. */
  const Cas: seq<Ca> := [
    Ca(Pki, "ca", "/CN=kubernetes-ca"),
    Ca(PkiEtcd, "ca", "/CN=etcd-ca"),
    Ca(Pki, "front-proxy-ca", "/CN=kubernetes-front-proxy-ca")
  ]

  function CaKey(ca: Ca): File { File(ca.dir, ca.name, "key") }
  function CaCrt(ca: Ca): File { File(ca.dir, ca.name, "crt") }

  /** `generator_ca`: an RSA key, then a self-signed certificate for it. */
  function CaSteps(ca: Ca, days: int, show: bool): seq<Step> {
    [GenRsaKey(CaKey(ca)), SelfSign(CaKey(ca), CaCrt(ca), ca.subject, days)]
    + (if show then [ShowCert(CaCrt(ca))] else [])
  }

  function CaFiles(ca: Ca): set<File> { {CaKey(ca), CaCrt(ca)} }

  /** Creating a CA always succeeds and leaves its key and certificate. */
  lemma CaExec(fs: set<File>, ca: Ca, days: int, show: bool)
    ensures Exec(fs, CaSteps(ca, days, show)) == (true, fs + CaFiles(ca))
  {
    var steps := CaSteps(ca, days, show);
    ExecFirst(fs, steps);
    ExecFirst(fs + {CaKey(ca)}, steps[1..]);
    var fs2 := fs + {CaKey(ca)} + {CaCrt(ca)};
    if show {
      ExecFirst(fs2, steps[2..]);
      assert fs2 + {} == fs2;
      assert steps[2..][1..] == [];
    } else {
      assert steps[1..][1..] == [];
    }
    assert fs2 == fs + CaFiles(ca);
  }

  function CasSteps(cas: seq<Ca>, days: int, show: bool): seq<Step> {
    if cas == [] then [] else CasSteps(cas[..|cas| - 1], days, show) + CaSteps(cas[|cas| - 1], days, show)
  }

  function CasFiles(cas: seq<Ca>): set<File> {
    if cas == [] then {} else CasFiles(cas[..|cas| - 1]) + CaFiles(cas[|cas| - 1])
  }

  lemma {:induction false} CasExec(fs: set<File>, cas: seq<Ca>, days: int, show: bool)
    ensures Exec(fs, CasSteps(cas, days, show)) == (true, fs + CasFiles(cas))
  {
    if cas != [] {
      var init := cas[..|cas| - 1];
      CasExec(fs, init, days, show);
      ExecAppend(fs, CasSteps(init, days, show), CaSteps(cas[|cas| - 1], days, show));
      CaExec(fs + CasFiles(init), cas[|cas| - 1], days, show);
      assert fs + CasFiles(init) + CaFiles(cas[|cas| - 1]) == fs + CasFiles(cas);
    } else {
      assert fs + CasFiles(cas) == fs;
    }
  }

  /** `generator_sa`: the service-account key pair. */
  const SaKey := File(Pki, "sa", "key")
  const SaPub := File(Pki, "sa", "pub")
  const SaSteps: seq<Step> := [GenEcKey(SaKey), ExportEcPublic(SaKey, SaPub)]

  lemma SaExec(fs: set<File>)
    ensures Exec(fs, SaSteps) == (true, fs + {SaKey, SaPub})
  {
    ExecFirst(fs, SaSteps);
    ExecFirst(fs + {SaKey}, SaSteps[1..]);
    assert SaSteps[1..][1..] == [];
    assert fs + {SaKey} + {SaPub} == fs + {SaKey, SaPub};
  }

  /** Which subjectAltName list a certificate carries. */
  datatype SanKind = NoSan | EtcdSan | ApiserverSan

  /** A leaf certificate: its name, where its key and certificate go, which CA signs it,
      where its request configuration and request go, and its subject and usage. The
      catalog's subject text never contains `%`. */
  datatype Leaf = Leaf(
    name: string, outDir: Dir, caDir: Dir, caName: string, sslDir: Dir,
    cn: PlainText, org: Option<PlainText>, kind: Option<string>, san: SanKind)

  /** `generate_certs_etcd`. */
  const EtcdServer := Leaf("server", PkiEtcd, PkiEtcd, "ca", SslEtcd, "kube-etcd", None, None, EtcdSan)
  /** `generate_certs_etcd_peer`. */
  const EtcdPeer := Leaf("peer", PkiEtcd, PkiEtcd, "ca", SslEtcd, "kube-etcd-peer", None, None, EtcdSan)
  /** `generate_certs_etcd_healthcheck`. */
  const EtcdHealthcheck := Leaf("healthcheck-client", PkiEtcd, PkiEtcd, "ca", SslEtcd,
                                "kube-etcd-healthcheck-client", None, Some("client"), NoSan)
  /** `generate_certs_apiserver_etcd`. */
  const ApiserverEtcdClient := Leaf("apiserver-etcd-client", Pki, PkiEtcd, "ca", Ssl,
                                    "kube-apiserver-etcd-client", Some("system:masters"), Some("client"), NoSan)
  /** `generate_certs_apiserver`. */
  const Apiserver := Leaf("apiserver", Pki, Pki, "ca", Ssl, "kube-apiserver", None, Some("server"), ApiserverSan)
  /** `generate_apiserver_kubelet`. */
  const ApiserverKubeletClient := Leaf("apiserver-kubelet-client", Pki, Pki, "ca", Ssl,
                                       "kube-apiserver-kubelet-client", Some("system:masters"), Some("client"), NoSan)
  /** `generate_front_proxy_kubelet`. */
  const FrontProxyClient := Leaf("front-proxy-client", Pki, Pki, "front-proxy-ca", Ssl,
                                 "front-proxy-client", None, Some("client"), NoSan)

  /** `generate_certs_all`, in call order. */
  const Leaves: seq<Leaf> := [
    EtcdServer, EtcdPeer, EtcdHealthcheck, ApiserverEtcdClient,
    Apiserver, ApiserverKubeletClient, FrontProxyClient
  ]

  /** A kubeconfig user: its client certificate and the configuration file name. */
  datatype User = User(leaf: Leaf, conf: string)

  /** `generate_cluster_config_admin`; the client certificates of the kubeconfig users
      are written to the temporary `ssl` directory. */
  const Admin := User(Leaf("admin-apiserver-client", Ssl, Pki, "ca", Ssl,
                           "kubernetes-admin", Some("system:masters"), Some("client"), NoSan), "admin")
  /** `generate_cluster_config_controller_manager`. */
  const ControllerManager := User(Leaf("controller-manager-apiserver-client", Ssl, Pki, "ca", Ssl,
                                       "system:kube-controller-manager", None, Some("client"), NoSan),
                                  "controller-manager")
  /** `generate_cluster_config_scheduler`. */
  const Scheduler := User(Leaf("scheduler-apiserver-client", Ssl, Pki, "ca", Ssl,
                               "system:kube-scheduler", None, Some("client"), NoSan), "scheduler")

  /** `generate_cluster_config_all`, in call order. */
  const Users: seq<User> := [Admin, ControllerManager, Scheduler]

  function ConfFile(l: Leaf): File { File(l.sslDir, l.name, "conf") }
  function CsrFile(l: Leaf): File { File(l.sslDir, l.name, "csr") }
  function KeyFile(l: Leaf): File { File(l.outDir, l.name, "key") }
  function CrtFile(l: Leaf): File { File(l.outDir, l.name, "crt") }
  function IssuerKey(l: Leaf): File { File(l.caDir, l.caName, "key") }
  function IssuerCrt(l: Leaf): File { File(l.caDir, l.caName, "crt") }

  /** Everything a leaf's steps depend on and the generator does not create for it. */
  function IssuerFiles(l: Leaf): set<File> { {IssuerKey(l), IssuerCrt(l)} }

  /** The generator's settings and registry, as the steps use them. */
  datatype Settings = Settings(days: int, subnet: string, kwargs: map<string, string>, topo: Topology)

  function AltNamesOf(s: Settings, k: SanKind): Options {
    match k
    case NoSan => []
    case EtcdSan => AltNames(EtcdDns(s.topo), EtcdIps(s.topo))
    case ApiserverSan => AltNames(ApiserverDns(s.topo), ApiserverIps(s.subnet, s.topo))
  }

  /** The `generator_csr_conf` arguments for a leaf. */
  function LeafRequest(s: Settings, l: Leaf): Request {
    Request(s.kwargs, Some(l.cn), l.org, l.kind, AltNamesOf(s, l.san))
  }

  /** The request configuration written for a leaf. */
  function LeafDoc(s: Settings, l: Leaf): Config {
    Document(LeafRequest(s, l))
  }

  /** `generator_certs(path, name, ca_path, ca_name, ssl_path)`: a key, a request made
      with the configuration in `ssl_path`, and the certificate signed by the CA. */
  function CertSteps(path: Dir, name: string, caPath: Dir, caName: string, sslPath: Dir,
                     days: int, show: bool): (r: seq<Step>)
    ensures SignsWith(r, {File(caPath, caName, "crt"), File(caPath, caName, "key")})
  {
    [
      GenRsaKey(File(path, name, "key")),
      MakeCsr(File(path, name, "key"), File(sslPath, name, "conf"), File(sslPath, name, "csr")),
      SignCsr(File(sslPath, name, "csr"), File(caPath, caName, "crt"), File(caPath, caName, "key"),
              File(sslPath, name, "conf"), File(path, name, "crt"), days)
    ] + (if show then [ShowCert(File(path, name, "crt"))] else [])
  }

  /** `generator_csr_conf` then `generator_certs` for one leaf. */
  function LeafSteps(l: Leaf, req: Request, days: int, show: bool): (r: seq<Step>)
    ensures SignsWith(r, IssuerFiles(l))
  {
    [WriteCsrConf(ConfFile(l), req)] + CertSteps(l.outDir, l.name, l.caDir, l.caName, l.sslDir, days, show)
  }

  function LeafFiles(l: Leaf): set<File> {
    {ConfFile(l), KeyFile(l), CsrFile(l), CrtFile(l), SerialFile(IssuerCrt(l))}
  }

  /** With the issuer's key and certificate present and a request `set` accepts, a
      leaf's steps all succeed. */
  lemma LeafExec(fs: set<File>, l: Leaf, req: Request, days: int, show: bool)
    requires IssuerFiles(l) <= fs && Interpolatable(req)
    ensures Exec(fs, LeafSteps(l, req, days, show)) == (true, fs + LeafFiles(l))
  {
    var steps := LeafSteps(l, req, days, show);
    var fs1 := fs + {ConfFile(l)};
    var fs2 := fs1 + {KeyFile(l)};
    var fs3 := fs2 + {CsrFile(l)};
    var fs4 := fs3 + {CrtFile(l), SerialFile(IssuerCrt(l))};
    ExecFirst(fs, steps);
    ExecFirst(fs1, steps[1..]);
    ExecFirst(fs2, steps[1..][1..]);
    ExecFirst(fs3, steps[1..][1..][1..]);
    var rest := steps[1..][1..][1..][1..];
    if show {
      ExecFirst(fs4, rest);
      assert fs4 + {} == fs4;
      assert rest[1..] == [];
    } else {
      assert rest == [];
    }
    assert fs4 == fs + LeafFiles(l);
  }

  /** A request `set` refuses stops the leaf at its first step, before anything is
      written. */
  lemma LeafExecRejected(fs: set<File>, l: Leaf, req: Request, days: int, show: bool)
    requires !Interpolatable(req)
    ensures Exec(fs, LeafSteps(l, req, days, show)) == (false, fs)
  {
    var steps := LeafSteps(l, req, days, show);
    assert steps[0] == WriteCsrConf(ConfFile(l), req);
  }

  /** Without the issuer's key or certificate, the signing step fails and stops the run
      after the request is made. */
  lemma LeafExecMissingIssuer(fs: set<File>, l: Leaf, req: Request, days: int, show: bool)
    requires !(IssuerFiles(l) <= fs) && Interpolatable(req)
    requires IssuerKey(l) !in {ConfFile(l), KeyFile(l), CsrFile(l)}
    requires IssuerCrt(l) !in {ConfFile(l), KeyFile(l), CsrFile(l)}
    ensures Exec(fs, LeafSteps(l, req, days, show)) == (false, fs + {ConfFile(l), KeyFile(l), CsrFile(l)})
  {
    var steps := LeafSteps(l, req, days, show);
    var fs1 := fs + {ConfFile(l)};
    var fs2 := fs1 + {KeyFile(l)};
    var fs3 := fs2 + {CsrFile(l)};
    ExecFirst(fs, steps);
    ExecFirst(fs1, steps[1..]);
    ExecFirst(fs2, steps[1..][1..]);
    var rest := steps[1..][1..][1..];
    assert rest[0] == SignCsr(CsrFile(l), IssuerCrt(l), IssuerKey(l), ConfFile(l), CrtFile(l), days);
    assert IssuerKey(l) in fs3 <==> IssuerKey(l) in fs;
    assert IssuerCrt(l) in fs3 <==> IssuerCrt(l) in fs;
    assert Apply(fs3, rest[0]).None?;
    assert fs3 == fs + {ConfFile(l), KeyFile(l), CsrFile(l)};
  }

  /** The steps of the first `n` leaves of `ls`, one leaf after the other. */
  function LeavesSteps(s: Settings, ls: seq<Leaf>, n: nat, show: bool): seq<Step>
    requires n <= |ls|
  {
    if n == 0 then []
    else LeavesSteps(s, ls, n - 1, show) + LeafSteps(ls[n - 1], LeafRequest(s, ls[n - 1]), s.days, show)
  }

  function LeavesFiles(ls: seq<Leaf>, n: nat): set<File>
    requires n <= |ls|
  {
    if n == 0 then {} else LeavesFiles(ls, n - 1) + LeafFiles(ls[n - 1])
  }

  /** `set` accepts the requests of the first `n` leaves of `ls`. */
  predicate LeavesAccepted(s: Settings, ls: seq<Leaf>, n: nat)
    requires n <= |ls|
  {
    n == 0 || (LeavesAccepted(s, ls, n - 1) && Interpolatable(LeafRequest(s, ls[n - 1])))
  }

  /** `LeavesAccepted` says that each of the first `n` requests is accepted. */
  lemma {:induction false} LeavesAcceptedEach(s: Settings, ls: seq<Leaf>, n: nat)
    requires n <= |ls|
    ensures LeavesAccepted(s, ls, n) <==> forall i :: 0 <= i < n ==> Interpolatable(LeafRequest(s, ls[i]))
  {
    if n > 0 {
      LeavesAcceptedEach(s, ls, n - 1);
    }
  }

  lemma {:induction false} LeavesExec(fs: set<File>, s: Settings, ls: seq<Leaf>, n: nat, show: bool)
    requires n <= |ls|
    requires forall i :: 0 <= i < |ls| ==> IssuerFiles(ls[i]) <= fs
    requires LeavesAccepted(s, ls, n)
    ensures Exec(fs, LeavesSteps(s, ls, n, show)) == (true, fs + LeavesFiles(ls, n))
  {
    if n > 0 {
      var l := ls[n - 1];
      LeavesExec(fs, s, ls, n - 1, show);
      ExecAppend(fs, LeavesSteps(s, ls, n - 1, show), LeafSteps(l, LeafRequest(s, l), s.days, show));
      var fs1 := fs + LeavesFiles(ls, n - 1);
      assert IssuerFiles(l) <= fs && fs <= fs1;
      LeafExec(fs1, l, LeafRequest(s, l), s.days, show);
      assert LeavesFiles(ls, n) == LeavesFiles(ls, n - 1) + LeafFiles(l);
      assert fs1 + LeafFiles(l) == fs + LeavesFiles(ls, n);
    } else {
      assert fs + LeavesFiles(ls, n) == fs;
    }
  }

  /** With the issuers present, a leaf whose request `set` refuses stops the leaf stage;
      the files already there stay. */
  lemma {:induction false} LeavesRejected(fs: set<File>, s: Settings, ls: seq<Leaf>, n: nat, show: bool)
    requires n <= |ls|
    requires forall i :: 0 <= i < |ls| ==> IssuerFiles(ls[i]) <= fs
    requires !LeavesAccepted(s, ls, n)
    ensures !Exec(fs, LeavesSteps(s, ls, n, show)).0
    ensures fs <= Exec(fs, LeavesSteps(s, ls, n, show)).1
  {
    var l := ls[n - 1];
    ExecAppend(fs, LeavesSteps(s, ls, n - 1, show), LeafSteps(l, LeafRequest(s, l), s.days, show));
    if !LeavesAccepted(s, ls, n - 1) {
      LeavesRejected(fs, s, ls, n - 1, show);
    } else {
      LeavesExec(fs, s, ls, n - 1, show);
      LeafExecRejected(fs + LeavesFiles(ls, n - 1), l, LeafRequest(s, l), s.days, show);
    }
  }

  /** The Kubernetes CA certificate every kubeconfig embeds. */
  const KubeCaCrt := File(Pki, "ca", "crt")

  function KubeconfigFile(u: User): File { File(Root, u.conf, "conf") }

  /** `generator_cluster_config`: reads the CA certificate and the client certificate and
      key from the `ssl` directory and writes `{root}/{conf}.conf`. */
  function KubeconfigStep(s: Settings, u: User): (r: Step)
    ensures Reads(r) == {KubeCaCrt, File(Ssl, u.leaf.name, "crt"), File(Ssl, u.leaf.name, "key")}
  {
    WriteKubeconfig(KubeCaCrt, File(Ssl, u.leaf.name, "crt"), File(Ssl, u.leaf.name, "key"),
                    KubeconfigFile(u), u.leaf.cn, ApiServer(s.topo.internal))
  }

  /** Each kubeconfig reads back the very key and certificate its user's leaf steps
      wrote, and the Kubernetes CA certificate. */
  lemma KubeconfigReadsOwnLeaf(s: Settings)
    ensures forall i :: 0 <= i < |Users| ==>
              Reads(KubeconfigStep(s, Users[i])) == {KubeCaCrt, CrtFile(Users[i].leaf), KeyFile(Users[i].leaf)}
  {
  }

  /** Writing a kubeconfig succeeds exactly when the three files it embeds exist; a
      missing one stops the run instead of producing an empty field. */
  lemma KubeconfigNeedsFiles(fs: set<File>, s: Settings, u: User)
    ensures Exec(fs, [KubeconfigStep(s, u)]).0
        <==> KubeCaCrt in fs && File(Ssl, u.leaf.name, "crt") in fs && File(Ssl, u.leaf.name, "key") in fs
  {
    var steps := [KubeconfigStep(s, u)];
    assert steps[1..] == [];
  }

  /** `generate_cluster_config_*`: the client certificate, then its kubeconfig. */
  function UserSteps(s: Settings, u: User, show: bool): seq<Step> {
    LeafSteps(u.leaf, LeafRequest(s, u.leaf), s.days, show) + [KubeconfigStep(s, u)]
  }

  function UserFiles(u: User): set<File> { LeafFiles(u.leaf) + {KubeconfigFile(u)} }

  /** A user whose certificate is written to `ssl` gets its kubeconfig once the issuer and
      the Kubernetes CA certificate exist. */
  lemma UserExec(fs: set<File>, s: Settings, u: User, show: bool)
    requires IssuerFiles(u.leaf) <= fs && KubeCaCrt in fs && u.leaf.outDir == Ssl
    requires Interpolatable(LeafRequest(s, u.leaf))
    ensures Exec(fs, UserSteps(s, u, show)) == (true, fs + UserFiles(u))
  {
    var leaf := LeafSteps(u.leaf, LeafRequest(s, u.leaf), s.days, show);
    ExecAppend(fs, leaf, [KubeconfigStep(s, u)]);
    LeafExec(fs, u.leaf, LeafRequest(s, u.leaf), s.days, show);
    var fs1 := fs + LeafFiles(u.leaf);
    assert Reads(KubeconfigStep(s, u)) <= fs1;
    ExecFirst(fs1, [KubeconfigStep(s, u)]);
    assert [KubeconfigStep(s, u)][1..] == [];
    assert fs1 + {KubeconfigFile(u)} == fs + UserFiles(u);
  }

  /** A user whose request `set` refuses gets neither certificate nor kubeconfig. */
  lemma UserExecRejected(fs: set<File>, s: Settings, u: User, show: bool)
    requires !Interpolatable(LeafRequest(s, u.leaf))
    ensures Exec(fs, UserSteps(s, u, show)) == (false, fs)
  {
    ExecAppend(fs, LeafSteps(u.leaf, LeafRequest(s, u.leaf), s.days, show), [KubeconfigStep(s, u)]);
    LeafExecRejected(fs, u.leaf, LeafRequest(s, u.leaf), s.days, show);
  }

  /** The steps of the first `n` users of `us`, one user after the other. */
  function UsersSteps(s: Settings, us: seq<User>, n: nat, show: bool): seq<Step>
    requires n <= |us|
  {
    if n == 0 then [] else UsersSteps(s, us, n - 1, show) + UserSteps(s, us[n - 1], show)
  }

  function UsersFiles(us: seq<User>, n: nat): set<File>
    requires n <= |us|
  {
    if n == 0 then {} else UsersFiles(us, n - 1) + UserFiles(us[n - 1])
  }

  /** `set` accepts the requests of the first `n` users of `us`. */
  predicate UsersAccepted(s: Settings, us: seq<User>, n: nat)
    requires n <= |us|
  {
    n == 0 || (UsersAccepted(s, us, n - 1) && Interpolatable(LeafRequest(s, us[n - 1].leaf)))
  }

  /** `UsersAccepted` says that each of the first `n` requests is accepted. */
  lemma {:induction false} UsersAcceptedEach(s: Settings, us: seq<User>, n: nat)
    requires n <= |us|
    ensures UsersAccepted(s, us, n) <==> forall i :: 0 <= i < n ==> Interpolatable(LeafRequest(s, us[i].leaf))
  {
    if n > 0 {
      UsersAcceptedEach(s, us, n - 1);
    }
  }

  lemma {:induction false} UsersExec(fs: set<File>, s: Settings, us: seq<User>, n: nat, show: bool)
    requires n <= |us|
    requires KubeCaCrt in fs
    requires forall i :: 0 <= i < |us| ==> IssuerFiles(us[i].leaf) <= fs && us[i].leaf.outDir == Ssl
    requires UsersAccepted(s, us, n)
    ensures Exec(fs, UsersSteps(s, us, n, show)) == (true, fs + UsersFiles(us, n))
  {
    if n > 0 {
      var u := us[n - 1];
      UsersExec(fs, s, us, n - 1, show);
      ExecAppend(fs, UsersSteps(s, us, n - 1, show), UserSteps(s, u, show));
      var fs1 := fs + UsersFiles(us, n - 1);
      assert IssuerFiles(u.leaf) <= fs && fs <= fs1;
      UserExec(fs1, s, u, show);
      assert UsersFiles(us, n) == UsersFiles(us, n - 1) + UserFiles(u);
      assert fs1 + UserFiles(u) == fs + UsersFiles(us, n);
    } else {
      assert fs + UsersFiles(us, n) == fs;
    }
  }

  /** With the issuers present, a user whose request `set` refuses stops the kubeconfig
      stage; the files already there stay. */
  lemma {:induction false} UsersRejected(fs: set<File>, s: Settings, us: seq<User>, n: nat, show: bool)
    requires n <= |us|
    requires KubeCaCrt in fs
    requires forall i :: 0 <= i < |us| ==> IssuerFiles(us[i].leaf) <= fs && us[i].leaf.outDir == Ssl
    requires !UsersAccepted(s, us, n)
    ensures !Exec(fs, UsersSteps(s, us, n, show)).0
    ensures fs <= Exec(fs, UsersSteps(s, us, n, show)).1
  {
    var u := us[n - 1];
    ExecAppend(fs, UsersSteps(s, us, n - 1, show), UserSteps(s, u, show));
    if !UsersAccepted(s, us, n - 1) {
      UsersRejected(fs, s, us, n - 1, show);
    } else {
      UsersExec(fs, s, us, n - 1, show);
      UserExecRejected(fs + UsersFiles(us, n - 1), s, u, show);
    }
  }

  /** `generate_ca_all`, `generate_certs_all`, `generate_sa_all`,
      `generate_cluster_config_all` and `clear`, in that order. */
  function MainSteps(s: Settings, show: bool): (r: seq<Step>)
    ensures |r| > 0 && r[|r| - 1] == RemoveTree(Ssl)
  {
    CasSteps(Cas, s.days, show)
    + (LeavesSteps(s, Leaves, |Leaves|, show) + (SaSteps + (UsersSteps(s, Users, |Users|, show) + [RemoveTree(Ssl)])))
  }

  /** `set` accepts the request of every leaf and of every kubeconfig user. */
  predicate PlanAccepted(s: Settings) {
    LeavesAccepted(s, Leaves, |Leaves|) && UsersAccepted(s, Users, |Users|)
  }

  /** Every file the plan creates before the clean-up. */
  function Created(): set<File> {
    CasFiles(Cas) + LeavesFiles(Leaves, |Leaves|) + {SaKey, SaPub} + UsersFiles(Users, |Users|)
  }

  /** Every leaf and every kubeconfig user is issued by one of the three CAs: the etcd CA
      for the four etcd-facing certificates, the front-proxy CA for the front-proxy
      client and the Kubernetes CA for the rest; every client certificate of a
      kubeconfig is written to `ssl`. */
  lemma CatalogIssuers()
    ensures forall l :: l in {EtcdServer, EtcdPeer, EtcdHealthcheck, ApiserverEtcdClient} ==>
              IssuerFiles(l) == CaFiles(Cas[1])
    ensures forall l :: l in {Apiserver, ApiserverKubeletClient, Admin.leaf, ControllerManager.leaf, Scheduler.leaf} ==>
              IssuerFiles(l) == CaFiles(Cas[0])
    ensures IssuerFiles(FrontProxyClient) == CaFiles(Cas[2])
    ensures forall i :: 0 <= i < |Users| ==> Users[i].leaf.outDir == Ssl
  {
  }

  /** The first stage creates the key and certificate of every issuer the later stages
      name, and the CA certificate the kubeconfigs embed. */
  lemma IssuersCreated()
    ensures forall i :: 0 <= i < |Leaves| ==> IssuerFiles(Leaves[i]) <= CasFiles(Cas)
    ensures forall i :: 0 <= i < |Users| ==> IssuerFiles(Users[i].leaf) <= CasFiles(Cas)
    ensures KubeCaCrt in CasFiles(Cas)
  {
    var c0, c1 := Cas[..1], Cas[..2];
    assert c1[..1] == c0 && Cas[..|Cas| - 1] == c1 && c0[..0] == [];
    assert CasFiles(c0) == CaFiles(Cas[0]);
    assert CasFiles(c1) == CaFiles(Cas[0]) + CaFiles(Cas[1]);
    assert CasFiles(Cas) == CaFiles(Cas[0]) + CaFiles(Cas[1]) + CaFiles(Cas[2]);
  }

  /** `clear` always succeeds and removes everything under `ssl`. */
  lemma ClearExec(fs: set<File>)
    ensures Exec(fs, [RemoveTree(Ssl)]) == (true, Cleared(fs, Ssl))
  {
    var steps := [RemoveTree(Ssl)];
    assert Apply(fs, steps[0]) == Some(Cleared(fs, Ssl));
    assert steps[1..] == [];
  }

  /** The kubeconfig stage, once the CAs exist. */
  lemma UsersAllExec(fs: set<File>, s: Settings, show: bool)
    requires CasFiles(Cas) <= fs && PlanAccepted(s)
    ensures Exec(fs, UsersSteps(s, Users, |Users|, show)) == (true, fs + UsersFiles(Users, |Users|))
  {
    IssuersCreated();
    CatalogIssuers();
    UsersExec(fs, s, Users, |Users|, show);
  }

  /** The kubeconfig stage and the clean-up, once the CAs exist. */
  lemma UsersAndClearExec(fs: set<File>, s: Settings, show: bool)
    requires CasFiles(Cas) <= fs && PlanAccepted(s)
    ensures Exec(fs, UsersSteps(s, Users, |Users|, show) + [RemoveTree(Ssl)])
         == (true, Cleared(fs + UsersFiles(Users, |Users|), Ssl))
  {
    UsersAllExec(fs, s, show);
    ExecAppend(fs, UsersSteps(s, Users, |Users|, show), [RemoveTree(Ssl)]);
    ClearExec(fs + UsersFiles(Users, |Users|));
  }

  /** Everything after the CA stage, once the CAs exist. */
  lemma AfterCasExec(fs: set<File>, s: Settings, show: bool)
    requires CasFiles(Cas) <= fs && PlanAccepted(s)
    ensures Exec(fs, LeavesSteps(s, Leaves, |Leaves|, show) + (SaSteps + (UsersSteps(s, Users, |Users|, show) + [RemoveTree(Ssl)])))
         == (true, Cleared(fs + LeavesFiles(Leaves, |Leaves|) + {SaKey, SaPub} + UsersFiles(Users, |Users|), Ssl))
  {
    var b := LeavesSteps(s, Leaves, |Leaves|, show);
    var rest := UsersSteps(s, Users, |Users|, show) + [RemoveTree(Ssl)];
    IssuersCreated();
    LeavesExec(fs, s, Leaves, |Leaves|, show);
    var fs1 := fs + LeavesFiles(Leaves, |Leaves|);
    ExecAppend(fs, b, SaSteps + rest);
    SaExec(fs1);
    ExecAppend(fs1, SaSteps, rest);
    UsersAndClearExec(fs1 + {SaKey, SaPub}, s, show);
  }

  /** Everything after the CA stage stops early when `set` refuses some request; the
      clean-up never runs, so nothing is removed. */
  lemma AfterCasRejected(fs: set<File>, s: Settings, show: bool)
    requires CasFiles(Cas) <= fs && !PlanAccepted(s)
    ensures var r := Exec(fs, LeavesSteps(s, Leaves, |Leaves|, show) + (SaSteps + (UsersSteps(s, Users, |Users|, show) + [RemoveTree(Ssl)])));
      !r.0 && fs <= r.1
  {
    var b := LeavesSteps(s, Leaves, |Leaves|, show);
    var c := UsersSteps(s, Users, |Users|, show);
    var rest := c + [RemoveTree(Ssl)];
    IssuersCreated();
    CatalogIssuers();
    ExecAppend(fs, b, SaSteps + rest);
    if !LeavesAccepted(s, Leaves, |Leaves|) {
      LeavesRejected(fs, s, Leaves, |Leaves|, show);
    } else {
      LeavesExec(fs, s, Leaves, |Leaves|, show);
      var fs1 := fs + LeavesFiles(Leaves, |Leaves|);
      SaExec(fs1);
      ExecAppend(fs1, SaSteps, rest);
      var fs2 := fs1 + {SaKey, SaPub};
      ExecAppend(fs2, c, [RemoveTree(Ssl)]);
      UsersRejected(fs2, s, Users, |Users|, show);
    }
  }

  /** From any starting files, every step of the plan finds its inputs, so the plan runs
      to the end exactly when `set` accepts every request; then the files are the ones
      there before plus the ones it created, minus everything under `ssl`. Otherwise it
      stops after the CAs are created, and the clean-up never runs. */
  lemma PlanExec(fs: set<File>, s: Settings, show: bool)
    ensures Exec(fs, MainSteps(s, show)).0 <==> PlanAccepted(s)
    ensures PlanAccepted(s) ==> Exec(fs, MainSteps(s, show)).1 == Cleared(fs + Created(), Ssl)
    ensures !PlanAccepted(s) ==> fs + CasFiles(Cas) <= Exec(fs, MainSteps(s, show)).1
  {
    var a := CasSteps(Cas, s.days, show);
    CasExec(fs, Cas, s.days, show);
    ExecAppend(fs, a, MainSteps(s, show)[|a|..]);
    assert MainSteps(s, show) == a + MainSteps(s, show)[|a|..];
    if PlanAccepted(s) {
      AfterCasExec(fs + CasFiles(Cas), s, show);
      assert fs + CasFiles(Cas) + LeavesFiles(Leaves, |Leaves|) + {SaKey, SaPub} + UsersFiles(Users, |Users|) == fs + Created();
    } else {
      AfterCasRejected(fs + CasFiles(Cas), s, show);
    }
  }

  /** Every `SignCsr` among the steps uses a CA key and certificate from `cas`. */
  predicate SignsWith(steps: seq<Step>, cas: set<File>) {
    forall i :: 0 <= i < |steps| && steps[i].SignCsr? ==> steps[i].caCrt in cas && steps[i].caKey in cas
  }

  lemma SignsWithAppend(a: seq<Step>, b: seq<Step>, cas: set<File>)
    requires SignsWith(a, cas) && SignsWith(b, cas)
    ensures SignsWith(a + b, cas)
  {
    forall i | 0 <= i < |a + b| && (a + b)[i].SignCsr?
      ensures (a + b)[i].caCrt in cas && (a + b)[i].caKey in cas
    {
      if i >= |a| { assert (a + b)[i] == b[i - |a|]; }
    }
  }

  /** The CA stage signs nothing with another key: each CA certificate is self-signed. */
  lemma {:induction false} CasSignNothing(cas: seq<Ca>, days: int, show: bool)
    ensures SignsWith(CasSteps(cas, days, show), {})
  {
    if cas != [] {
      CasSignNothing(cas[..|cas| - 1], days, show);
      SignsWithAppend(CasSteps(cas[..|cas| - 1], days, show), CaSteps(cas[|cas| - 1], days, show), {});
    }
  }

  lemma {:induction false} LeavesSignWith(s: Settings, ls: seq<Leaf>, n: nat, show: bool, cas: set<File>)
    requires n <= |ls|
    requires forall i :: 0 <= i < |ls| ==> IssuerFiles(ls[i]) <= cas
    ensures SignsWith(LeavesSteps(s, ls, n, show), cas)
  {
    if n > 0 {
      var l := ls[n - 1];
      LeavesSignWith(s, ls, n - 1, show, cas);
      SignsWithAppend(LeavesSteps(s, ls, n - 1, show), LeafSteps(l, LeafRequest(s, l), s.days, show), cas);
    }
  }

  lemma {:induction false} UsersSignWith(s: Settings, us: seq<User>, n: nat, show: bool, cas: set<File>)
    requires n <= |us|
    requires forall i :: 0 <= i < |us| ==> IssuerFiles(us[i].leaf) <= cas
    ensures SignsWith(UsersSteps(s, us, n, show), cas)
  {
    if n > 0 {
      var u := us[n - 1];
      UsersSignWith(s, us, n - 1, show, cas);
      var leaf := LeafSteps(u.leaf, LeafRequest(s, u.leaf), s.days, show);
      SignsWithAppend(leaf, [KubeconfigStep(s, u)], cas);
      SignsWithAppend(UsersSteps(s, us, n - 1, show), UserSteps(s, u, show), cas);
    }
  }

  /** Every signing step of the plan comes after the CA stage and signs with the key and
      certificate of one of the three CAs that stage created. */
  lemma SigningAfterCas(s: Settings, show: bool)
    ensures var cas := CasSteps(Cas, s.days, show);
      && MainSteps(s, show)[..|cas|] == cas
      && !SignsAny(cas)
      && SignsWith(MainSteps(s, show)[|cas|..], CasFiles(Cas))
  {
    var cas := CasSteps(Cas, s.days, show);
    var rest := LeavesSteps(s, Leaves, |Leaves|, show) + (SaSteps + (UsersSteps(s, Users, |Users|, show) + [RemoveTree(Ssl)]));
    assert MainSteps(s, show) == cas + rest;
    assert MainSteps(s, show)[..|cas|] == cas && MainSteps(s, show)[|cas|..] == rest;
    CasSignNothing(Cas, s.days, show);
    IssuersCreated();
    LeavesSignWith(s, Leaves, |Leaves|, show, CasFiles(Cas));
    UsersSignWith(s, Users, |Users|, show, CasFiles(Cas));
    SignsWithAppend(UsersSteps(s, Users, |Users|, show), [RemoveTree(Ssl)], CasFiles(Cas));
    SignsWithAppend(SaSteps, UsersSteps(s, Users, |Users|, show) + [RemoveTree(Ssl)], CasFiles(Cas));
    SignsWithAppend(LeavesSteps(s, Leaves, |Leaves|, show), SaSteps + (UsersSteps(s, Users, |Users|, show) + [RemoveTree(Ssl)]), CasFiles(Cas));
  }

  /** Some step among them is a signing step. */
  predicate SignsAny(steps: seq<Step>) {
    exists i :: 0 <= i < |steps| && steps[i].SignCsr?
  }

  /** The files the plan leaves behind, whatever the settings. */
  function Kept(): set<File> {
    Cleared(Created(), Ssl)
  }

  /** Run on an empty file system, the plan succeeds exactly when `set` accepts every
      request, and then leaves exactly the files it created outside `ssl`. */
  lemma PlanFromScratch(s: Settings, show: bool)
    ensures Exec({}, MainSteps(s, show)).0 <==> PlanAccepted(s)
    ensures PlanAccepted(s) ==> Exec({}, MainSteps(s, show)).1 == Kept()
  {
    PlanExec({}, s, show);
    assert {} + Created() == Created();
  }

  lemma CasFilesListed()
    ensures CasFiles(Cas) == {File(Pki, "ca", "key"), File(Pki, "ca", "crt"),
                              File(PkiEtcd, "ca", "key"), File(PkiEtcd, "ca", "crt"),
                              File(Pki, "front-proxy-ca", "key"), File(Pki, "front-proxy-ca", "crt")}
  {
    var c0, c1 := Cas[..1], Cas[..2];
    assert c1[..1] == c0 && Cas[..|Cas| - 1] == c1 && c0[..0] == [];
    assert CasFiles(c0) == CaFiles(Cas[0]);
    assert CasFiles(c1) == CaFiles(Cas[0]) + CaFiles(Cas[1]);
  }

  /** Nothing under `ssl` is kept. */
  lemma KeptOutsideSsl()
    ensures forall f :: f in Kept() ==> f.dir != Ssl && f.dir != SslEtcd
  {
  }

  /** The three CAs and the service-account key pair are kept. */
  lemma KeptCasAndSa()
    ensures CasFiles(Cas) <= Kept()
    ensures SaKey in Kept() && SaPub in Kept()
  {
    CasFilesListed();
    assert CasFiles(Cas) <= Created();
    assert forall f :: f in CasFiles(Cas) ==> !Under(f.dir, Ssl);
  }

  /** Every kubeconfig is kept, but not the client certificates they embed: those were
      written to `ssl` and remain only inside the kubeconfigs. */
  lemma KeptKubeconfigs()
    ensures forall i :: 0 <= i < |Users| ==> KubeconfigFile(Users[i]) in Kept()
    ensures forall i :: 0 <= i < |Users| ==> CrtFile(Users[i].leaf) !in Kept()
  {
    UsersFilesHold(Users, |Users|);
    CatalogIssuers();
  }

  /** A leaf certificate is kept exactly when it was written to `pki` or `pki/etcd`. */
  lemma KeptLeaves()
    ensures forall i :: 0 <= i < |Leaves| ==>
              (CrtFile(Leaves[i]) in Kept() <==> Leaves[i].outDir == Pki || Leaves[i].outDir == PkiEtcd)
  {
    LeavesFilesHold(Leaves, |Leaves|);
  }

  lemma {:induction false} UsersFilesHold(us: seq<User>, n: nat)
    requires n <= |us|
    ensures forall i :: 0 <= i < n ==> KubeconfigFile(us[i]) in UsersFiles(us, n) && CrtFile(us[i].leaf) in UsersFiles(us, n)
  {
    if n > 0 {
      UsersFilesHold(us, n - 1);
    }
  }

  lemma {:induction false} LeavesFilesHold(ls: seq<Leaf>, n: nat)
    requires n <= |ls|
    ensures forall i :: 0 <= i < n ==> CrtFile(ls[i]) in LeavesFiles(ls, n)
  {
    if n > 0 {
      LeavesFilesHold(ls, n - 1);
    }
  }
}
