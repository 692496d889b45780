# k8s-certs-generator: the certificate plan

This project models the certificate-planning core of `CertsGenerator` in
`k8s-certs-generator.py`, a tool that bootstraps the PKI of a Kubernetes control plane.
The tool keeps a registry of master nodes and advertise addresses. It creates three CAs,
seven leaf certificates, a service-account key pair and three kubeconfig files, each
embedding a client certificate of its own, so ten certificates are signed. It then
deletes its temporary `ssl` tree.

The model covers:

- **Topology registry** (`topology.dfy`, `generator.dfy`). The hostname and IP lists
  that `register_master` keeps duplicate-free in first-seen order, and the internal and
  external advertise addresses. The class `Generator.CertsGenerator` holds these as
  fields. Its methods are specified by the functions of module `Topology`. The lemmas
  there describe what any sequence of registry calls leaves behind.
- **subjectAltName lists** (`san.dfy`). These are the names and addresses of section
  4.2.1.6 of RFC 5280. They cover the etcd server and peer lists and the API server list
  with its service IP, which is computed from the service-subnet text. The entries are
  labelled `DNS.i` / `IP.j`, each kind numbered from zero.
- **CSR configuration** (`ini_config.dfy`, `csr_conf.dfy`). The part of `ConfigParser`
  that the tool uses, with keys kept in their original case as `MyConfigParser` does.
  `MyConfigParser` keeps the default `BasicInterpolation`, so every `set` first checks its
  value: after removing each `%%` and each `%(name)s`, no `%` may remain, or `set` raises
  `ValueError`. The document `generator_csr_conf` builds is stated once as a function. The
  `add_section`/`set` sequence is written as a method and proved to produce that document
  exactly when every value passes the check, and to stop otherwise.
- **Catalog, ordering and kubeconfigs** (`plan.dfy`, `leaf_docs.dfy`, `kubeconfig.dfy`,
  `generator.dfy`). Each openssl run, file write or tree removal is a step that reads and
  creates a set of files. A step whose inputs are missing fails and stops the run. The
  fixed catalog says which CA signs each leaf. The top-level order runs CAs, leaves, the
  service-account key, kubeconfigs and then `clear`. The proofs show that every step of
  this order finds its inputs, and that every signing step uses the files of a CA
  created earlier. A configuration write whose values fail the interpolation check
  fails, and the run stops there. The kubeconfig text is a pure function of the base64
  data, the common name and the internal advertise address.

Behaviours of the code worth noting:

- The API server's IP list is not de-duplicated. An internal advertise address that is
  also a master IP appears twice (`San.InternalMasterListedTwice`, `San.TwoMasterScenario`).
- `advertise_internal_ipaddr` does not always win. The first `register_master` overwrites
  an address set before it (`Topology.EarlyOverrideIsClobbered`).
- The service IP is the subnet text before its last `.` followed by `.1`. It is not
  computed as a network address.
- A run with no registered master and no internal advertise address set does not fail.
  The kubeconfig server is then `https://None:6443` (`Kubeconfig.ApiServer`). Once a
  master is registered, the server names the internal address that is set, which may
  itself be empty (`Generator.CertsGenerator.GeneratorClusterConfig`).
- A lone `%` (one not doubled and not part of `%(name)s`) in the template's `country`,
  `state`, `city`, `organization` or `organization_unit`, in a master hostname or in a
  master IP, such as the scoped IPv6 address `fe80::1%eth0`, makes `set` raise
  `ValueError` in the first `generator_csr_conf`. `100%%` passes
  (`IniConfig.EscapedPercentAccepted`). The run then stops after the CA stage
  (`LeafDocs.PercentOrganizationStopsPlan`, `LeafDocs.ZoneIndexStopsPlan`). Settings
  without `%` never hit it (`LeafDocs.PercentFreeAccepted`).
- The template's `common_name`, and so the common name `main` asks for, reaches no
  certificate. Every `generator_csr_conf` call passes a non-empty common name, which
  overrides it (`LeafDocs.TemplateCommonNameUnused`). A `%` there does not stop the run
  either (`LeafDocs.PercentCommonNameAccepted`).
- The kubeconfig data fields hold `str(bytes)`, so they carry a literal `b'...'` wrapper
  (`Kubeconfig.BytesStr`, `Kubeconfig.ClusterConfigLines`).

## Model

| member | source | states |
|---|---|---|
| `Subject.InitKwargs` | k8s-certs-generator.py:55-63 | every subject field is present; a given value is kept even when empty; a missing field takes its default; other keywords pass through |
| `Subject.InitKwargsEmpty` | k8s-certs-generator.py:57-62 | with no keywords the template is exactly the six defaults |
| `Topology.AppendNew` | k8s-certs-generator.py:114-117 | the value ends up in the list, the old list is a prefix, at most one element is added, and the list stays duplicate-free |
| `Topology.RegisterMaster` | k8s-certs-generator.py:104-117 | both values are registered, old lists are prefixes, the internal address becomes the IP only on the first registration, the external address is untouched, and validity is preserved |
| `Topology.AdvertiseInternal` | k8s-certs-generator.py:127-133 | overwrites the internal address and nothing else |
| `Topology.AdvertiseExternal` | k8s-certs-generator.py:119-125 | overwrites the external address and nothing else |
| `Topology.FirstSeenMembers` | k8s-certs-generator.py:114-117 | the first-seen reference list holds every input value once and nothing else |
| `Topology.RunMasterLists` | k8s-certs-generator.py:104-117 | after any call sequence both lists equal the registered values with repeats removed, in first-registration order |
| `Topology.RunMastersDistinct` | k8s-certs-generator.py:114-117 | after any call sequence both lists are duplicate-free and hold exactly the registered values |
| `Topology.RunIpsEmpty` | k8s-certs-generator.py:112 | the IP list is empty exactly when no registration has happened |
| `Topology.StepInternal` | k8s-certs-generator.py:111-133 | one call changes the internal address exactly when it is a setter call or the first registration |
| `Topology.RunInternalUnset` | k8s-certs-generator.py:52 | without a write the internal address stays unset |
| `Topology.RunInternalLastWrite` | k8s-certs-generator.py:111-133 | the internal address is the one written by the last writing call (setter or first registration) |
| `Topology.FirstMasterIsDefaultInternal` | k8s-certs-generator.py:111-113 | without a setter call the internal address is the first registered IP |
| `Topology.EarlyOverrideIsClobbered` | k8s-certs-generator.py:111-133 | a setter call before the first registration is overwritten by it |
| `Topology.Run` | k8s-certs-generator.py:104-133 | every registry reachable by calls is duplicate-free and has an internal address once a master exists |
| `Text.Decimal` | k8s-certs-generator.py:332 | `str(index)` is a non-empty string of decimal digits |
| `Text.DecimalInjective` | k8s-certs-generator.py:332 | different indices give different `str(index)` texts |
| `Text.BeforeLast` | k8s-certs-generator.py:458 | `rsplit('.', 1)[0]` gives all text before the last separator, or the whole text when there is none |
| `Text.SplitJoin` | k8s-certs-generator.py:563-581 | splitting a newline join of newline-free lines gives the lines back |
| `Text.JoinSplit` | k8s-certs-generator.py:563-581 | joining the pieces of a split gives the text back |
| `San.EnumeratedAt` | k8s-certs-generator.py:331-334 | entry i of an `enumerate` loop is labelled with i and carries element i |
| `San.AltNamesLayout` | k8s-certs-generator.py:465-468 | all DNS entries come first, labelled `DNS.0..DNS.(n-1)` in order, then the IP entries, labelled `IP.0..IP.(m-1)` independently |
| `San.AltNamesKeysDistinct` | k8s-certs-generator.py:331-334 | no two labels coincide |
| `San.AltNamesPlain` | k8s-certs-generator.py:331-334 | the list's values are the given names and addresses, so they are free of `%` when those are |
| `San.BuildAltNames` | k8s-certs-generator.py:465-468 | the two `enumerate` loops produce exactly the labelled list |
| `San.ServiceIpReplacesLastField` | k8s-certs-generator.py:458 | the service IP replaces what follows the last dot with `1` |
| `San.ServiceIpWithoutDot` | k8s-certs-generator.py:458 | a subnet text without a dot is kept whole and gets `.1` appended |
| `San.ServiceIpOfDefaultSubnet` | k8s-certs-generator.py:28 | `10.96.0.0/12` gives `10.96.0.1` |
| `San.ApiserverIpsLayout` | k8s-certs-generator.py:459-464 | the service IP comes first, then the master IPs, then the internal address if set, with the external address last if set |
| `San.InternalMasterListedTwice` | k8s-certs-generator.py:459-462 | an internal address that is also a master IP occurs at least twice |
| `San.TwoMasterTopology` | k8s-certs-generator.py:104-117 | two registrations give both lists in order, with the first IP as the internal address |
| `San.TwoMasterScenario` | k8s-certs-generator.py:451-464 | with those masters and the default subnet, the API server IPs are `10.96.0.1, 10.0.0.1, 10.0.0.2, 10.0.0.1` and the etcd IPs are `127.0.0.1, ::1` plus the masters |
| `IniConfig.SetOption` | k8s-certs-generator.py:235-283 | `set` on a section keeps its length for an existing key and adds one entry for a new key |
| `IniConfig.AddSection` | k8s-certs-generator.py:234 | `add_section` makes the section present, as the last one |
| `IniConfig.Set` | k8s-certs-generator.py:235-283 | `set` keeps the number and the names of the sections |
| `IniConfig.CheckedSet` | k8s-certs-generator.py:18-20 | `set` succeeds iff the value passes the interpolation check, and then stores the value as the unchecked `set` does |
| `IniConfig.PlainAccepted` | k8s-certs-generator.py:18-20 | a value without `%` always passes the interpolation check |
| `IniConfig.LonePercentRefused` | k8s-certs-generator.py:18-20 | a `%` followed by neither `%` nor `(` is refused, whatever plain text precedes it |
| `IniConfig.KeyRefAccepted` | k8s-certs-generator.py:18-20 | a complete `%(name)s` reference passes the check |
| `IniConfig.EscapeAccepted` | k8s-certs-generator.py:18-20 | doubling every `%` makes any text pass the check |
| `IniConfig.PercentExamplesRefused` | k8s-certs-generator.py:18-20 | `100%` and `fe80::1%eth0` are refused |
| `IniConfig.EscapedPercentAccepted` | k8s-certs-generator.py:18-20 | `100%%` is accepted |
| `IniConfig.SetOptionFind` | k8s-certs-generator.py:18-20 | after `set` the key reads back the new value, compared case-sensitively, and every other key its old value |
| `IniConfig.SetOptionKeys` | k8s-certs-generator.py:18-20 | `set` keeps the key order and appends a new key at the end |
| `IniConfig.SetOptionNew` | k8s-certs-generator.py:274-275 | setting an absent key appends the pair |
| `IniConfig.GetSet` | k8s-certs-generator.py:235-283 | `get` after `set` reads the new value for that entry and the old value for every other section and key |
| `IniConfig.SetOptionsFresh` | k8s-certs-generator.py:274-275 | setting pairs with distinct, absent keys appends them in order |
| `IniConfig.AddSectionItems` | k8s-certs-generator.py:234-278 | `add_section` adds an empty section and leaves the others as they were |
| `CsrConf.DnValue` | k8s-certs-generator.py:251-257 | CN comes from a non-empty `common_name`, O from a non-empty `organization`, and every other key from the template |
| `CsrConf.ExtendedKeyUsage` | k8s-certs-generator.py:264-269 | `serverAuth` iff kind is server, `clientAuth` iff client, `serverAuth,clientAuth` otherwise |
| `CsrConf.CsrSections` | k8s-certs-generator.py:233-278 | the sections are `req`, `req_distinguished_name`, `v3_ext`, `alt_names` only when there are names, then `req_ext` |
| `CsrConf.CsrHasAltNames` | k8s-certs-generator.py:272-279 | an `alt_names` section exists iff the names list is non-empty |
| `CsrConf.CsrReqAndSubject` | k8s-certs-generator.py:234-257 | the `req` section holds the five fixed options and the subject holds the DN entries |
| `CsrConf.CsrExtendedKeyUsage` | k8s-certs-generator.py:259-269 | `v3_ext` maps `extendedKeyUsage` to the kind's usage |
| `CsrConf.CsrV3SubjectAltName` | k8s-certs-generator.py:279-281 | `v3_ext` has `subjectAltName=@alt_names` iff there are names |
| `CsrConf.CsrReqExtSubjectAltName` | k8s-certs-generator.py:277-283 | `req_ext` has `subjectAltName=@alt_names` iff there are names |
| `CsrConf.CsrAltNames` | k8s-certs-generator.py:272-275 | with distinct labels the `alt_names` section holds the names exactly |
| `CsrConf.DnEntriesAllPresent` | k8s-certs-generator.py:243-257 | with every field in the template, there is one entry per field, in field order |
| `CsrConf.CsrSubjectOfFullTemplate` | k8s-certs-generator.py:241-257 | the subject is C, ST, L, O, OU, CN in that order, with O and CN overridden by non-empty arguments |
| `CsrConf.FixedValuesAccepted` | k8s-certs-generator.py:234-283 | every fixed value of the `req`, `v3_ext` and `req_ext` sections passes the interpolation check |
| `CsrConf.DnEntriesPlain` | k8s-certs-generator.py:251-257 | subject values come from the template or the arguments, so they are free of `%` when those are |
| `CsrConf.DnEntriesRefused` | k8s-certs-generator.py:251-257 | one refused subject value makes the whole subject refused |
| `CsrConf.DnEntriesTemplateCn` | k8s-certs-generator.py:251-253 | with a non-empty `common_name` argument, the subject is the same whatever the template's `common_name` holds |
| `CsrConf.AddAndSet` | k8s-certs-generator.py:272-275 | `add_section` then a `set` per pair succeeds iff every value passes the check, and then gives the section built by successive sets |
| `CsrConf.AddFixedSection` | k8s-certs-generator.py:234-239 | `add_section` then a `set` per pair with distinct keys gives a section holding the pairs as given |
| `CsrConf.AddSubject` | k8s-certs-generator.py:241-257 | the subject section succeeds iff every subject value passes the check, and then is appended with the DN entries |
| `CsrConf.AddDnSection` | k8s-certs-generator.py:242-257 | the DN loop over fields with distinct keys stops at the first refused value, and otherwise appends a section with one entry per field present in the template |
| `CsrConf.AddReqExt` | k8s-certs-generator.py:277-283 | `req_ext` is added, and `subjectAltName` is appended to both extension sections iff `alt_names` exists |
| `CsrConf.AddExtensions` | k8s-certs-generator.py:259-283 | succeeds iff every alternative-name value passes the check, and then the extension sections come out as the document states |
| `CsrConf.BuildCsrConf` | k8s-certs-generator.py:220-283 | the successive `add_section`/`set` calls succeed iff every subject and alternative-name value passes the check, and then build exactly the declared document |
| `Kubeconfig.BytesStr` | k8s-certs-generator.py:592-596 | `str(bytes)` wraps the base64 text as `b'...'` |
| `Kubeconfig.ApiServer` | k8s-certs-generator.py:593 | the server is `https://{internal}:6443`, or `https://None:6443` when the address is unset |
| `Kubeconfig.Parse` | k8s-certs-generator.py:563-581 | any text it accepts is the rendering of the slots it returns |
| `Kubeconfig.ParseRender` | k8s-certs-generator.py:563-597 | parsing a rendered file with newline-free slots gives the slots back |
| `Kubeconfig.RenderInjective` | k8s-certs-generator.py:591-597 | different slot values render to different files |
| `Kubeconfig.Lines` | k8s-certs-generator.py:563-581 | the filled template has 19 lines |
| `Kubeconfig.ClusterConfigSplit` | k8s-certs-generator.py:563-597 | the rendered file splits into the template's 19 lines |
| `Kubeconfig.ClusterConfigLines` | k8s-certs-generator.py:563-597 | the server line names the internal address at port 6443; the common name is the context user, `{cn}@kubernetes` and `current-context`, and the user name; the data lines carry `b'...'` |
| `LeafDocs.InitKwargsFull` | k8s-certs-generator.py:55-63 | the defaulted template has all six subject fields |
| `LeafDocs.LeafDocFacts` | k8s-certs-generator.py:220-283 | every leaf's subject carries the catalog CN and O, its usage follows its kind, and it has `alt_names` iff it has names |
| `LeafDocs.LeafAltNames` | k8s-certs-generator.py:271-283 | a leaf with names lists them labelled and both extension sections point at them |
| `LeafDocs.EtcdServerAndPeer` | k8s-certs-generator.py:326-368 | the etcd server and peer names are identical: `localhost` plus hostnames, and `127.0.0.1`, `::1` plus master IPs; both are used for server and client authentication |
| `LeafDocs.ApiserverCert` | k8s-certs-generator.py:451-476 | the API server lists the five in-cluster names plus hostnames and its IP list, and is used for server authentication only |
| `LeafDocs.ClientDoc` | k8s-certs-generator.py:389-395 | a client leaf without names has no `alt_names` section, no `subjectAltName` line, and `clientAuth` only |
| `LeafDocs.ClientCerts` | k8s-certs-generator.py:381-543 | the four client leaves and the three kubeconfig users are plain clients |
| `LeafDocs.MastersGroup` | k8s-certs-generator.py:408-424 | the etcd and kubelet clients of the API server and the admin user have O=`system:masters` |
| `LeafDocs.AltNamesOfPlain` | k8s-certs-generator.py:326-334 | with settings free of `%`, every alternative name of every kind is free of `%` |
| `LeafDocs.LeafAccepted` | k8s-certs-generator.py:220-283 | with settings free of `%`, every value of any leaf's request passes the check |
| `LeafDocs.LeavesPercentFree` | k8s-certs-generator.py:545-553 | with settings free of `%`, every leaf of the catalog is accepted |
| `LeafDocs.UsersPercentFree` | k8s-certs-generator.py:704-707 | with settings free of `%`, every kubeconfig user is accepted |
| `LeafDocs.PercentFreeAccepted` | k8s-certs-generator.py:775-779 | with settings free of `%`, the whole plan is accepted |
| `LeafDocs.PercentOrganizationStopsPlan` | k8s-certs-generator.py:241-257 | a full template with `organization="100%"` makes the plan fail |
| `LeafDocs.ZoneIndexStopsPlan` | k8s-certs-generator.py:272-275 | a master IP `fe80::1%eth0` makes the plan fail |
| `LeafDocs.TemplateCommonNameUnused` | k8s-certs-generator.py:251-253 | for a leaf with a non-empty common name, the request configuration and its acceptance do not depend on the template's `common_name` |
| `LeafDocs.TemplateCommonNamePlan` | k8s-certs-generator.py:251-253 | whether the plan is accepted does not depend on the template's `common_name` |
| `LeafDocs.PercentCommonNameAccepted` | k8s-certs-generator.py:251-253 | a `%` in the template's `common_name` alone, such as `50%`, leaves the plan accepted |
| `Plan.UnderPath` | k8s-certs-generator.py:77-102 | a nested directory's path starts with its parent's path and `/` |
| `Plan.Cleared` | k8s-certs-generator.py:709-710 | removing the tree keeps exactly the files outside it |
| `Plan.Apply` | k8s-certs-generator.py:285-312 | a step succeeds iff every file it reads exists and, for a configuration write, every value passes the interpolation check; a removal then keeps the files outside the tree, any other step adds its outputs |
| `Plan.ExecAppend` | k8s-certs-generator.py:775-779 | running two step lists in sequence is running their concatenation, and a failure skips the rest |
| `Plan.CaExec` | k8s-certs-generator.py:148-170 | creating a CA always succeeds and adds its key and certificate |
| `Plan.CasExec` | k8s-certs-generator.py:190-210 | the CA stage always succeeds and adds all CA files |
| `Plan.SaExec` | k8s-certs-generator.py:172-188 | the service-account stage adds `sa.key` and `sa.pub` |
| `Plan.CertSteps` | k8s-certs-generator.py:302-312 | a certificate is signed only with the given CA's key and certificate |
| `Plan.LeafSteps` | k8s-certs-generator.py:302-346 | a leaf is signed only with its issuer's key and certificate |
| `Plan.LeafExec` | k8s-certs-generator.py:290-315 | with the issuer's key and certificate present and an accepted request, a leaf's steps succeed and add its files |
| `Plan.LeafExecRejected` | k8s-certs-generator.py:220-288 | a refused request fails the leaf at its configuration write, before any file is made |
| `Plan.LeafExecMissingIssuer` | k8s-certs-generator.py:307-312 | without the issuer's files, signing fails after the key, config and request are written |
| `Plan.LeavesAcceptedEach` | k8s-certs-generator.py:545-553 | the leaf stage is accepted iff each leaf's request is |
| `Plan.LeavesExec` | k8s-certs-generator.py:545-553 | with all issuers present and every request accepted, the leaf stage succeeds |
| `Plan.LeavesRejected` | k8s-certs-generator.py:545-553 | with a refused request, the leaf stage fails and removes nothing |
| `Plan.KubeconfigStep` | k8s-certs-generator.py:582-590 | a kubeconfig write reads the CA certificate and the client's certificate and key in `ssl` |
| `Plan.KubeconfigReadsOwnLeaf` | k8s-certs-generator.py:586-590 | each kubeconfig reads the CA certificate and the key and certificate its own leaf steps wrote |
| `Plan.KubeconfigNeedsFiles` | k8s-certs-generator.py:582-590 | writing a kubeconfig succeeds iff the CA certificate and the client certificate and key exist |
| `Plan.UserExec` | k8s-certs-generator.py:603-636 | a kubeconfig user's steps succeed and add its files once its issuer and the CA certificate exist and its request is accepted |
| `Plan.UserExecRejected` | k8s-certs-generator.py:603-636 | a user with a refused request fails at once and changes nothing |
| `Plan.UsersAcceptedEach` | k8s-certs-generator.py:704-707 | the kubeconfig stage is accepted iff each user's request is |
| `Plan.UsersExec` | k8s-certs-generator.py:704-707 | the kubeconfig stage succeeds once the issuers exist and every request is accepted |
| `Plan.UsersRejected` | k8s-certs-generator.py:704-707 | with a refused request, the kubeconfig stage fails |
| `Plan.CatalogIssuers` | k8s-certs-generator.py:339-344 | the etcd CA signs the four etcd-facing leaves, the front-proxy CA signs the front-proxy client, the Kubernetes CA signs the rest, and kubeconfig client certificates go to `ssl` |
| `Plan.IssuersCreated` | k8s-certs-generator.py:203-209 | the CA stage creates every issuer file named later and the CA certificate the kubeconfigs embed |
| `Plan.ClearExec` | k8s-certs-generator.py:709-710 | `clear` always succeeds and removes everything under `ssl` |
| `Plan.MainSteps` | k8s-certs-generator.py:775-779 | `clear` is the last step of the plan |
| `Plan.AfterCasRejected` | k8s-certs-generator.py:775-779 | after the CA stage, a refused request fails the rest of the plan and removes nothing |
| `Plan.PlanExec` | k8s-certs-generator.py:775-779 | from any start the whole plan succeeds iff every request is accepted; it then leaves the old files plus the created ones, minus everything under `ssl`, and otherwise keeps at least the old files and the CA files |
| `Plan.SigningAfterCas` | k8s-certs-generator.py:775-776 | the CA stage signs nothing, and every later signing step uses a CA file created by that stage |
| `Plan.PlanFromScratch` | k8s-certs-generator.py:775-779 | on an empty disk the plan succeeds iff every request is accepted, and then leaves exactly the created files outside `ssl` |
| `Plan.CasFilesListed` | k8s-certs-generator.py:190-210 | the CA files are `pki/ca`, `pki/etcd/ca` and `pki/front-proxy-ca`, each with a key and a certificate |
| `Plan.KeptOutsideSsl` | k8s-certs-generator.py:709-710 | nothing under `ssl` is kept |
| `Plan.KeptCasAndSa` | k8s-certs-generator.py:190-218 | the CA files and the service-account key pair are kept |
| `Plan.KeptKubeconfigs` | k8s-certs-generator.py:621-636 | every kubeconfig is kept, but not the client certificate it embeds |
| `Plan.KeptLeaves` | k8s-certs-generator.py:339-544 | a leaf certificate is kept iff it was written under `pki` |
| `Generator.Disk.Run` | k8s-certs-generator.py:161-167 | runs one step unless an earlier one failed, matching the step semantics |
| `Generator.CertsGenerator.constructor` | k8s-certs-generator.py:24-53 | the settings are stored with the source's defaults, the template is defaulted, and the registry starts empty |
| `Generator.CertsGenerator.RegisterMaster` | k8s-certs-generator.py:104-117 | updates the fields as `Topology.RegisterMaster` does |
| `Generator.CertsGenerator.AdvertiseExternalIpaddr` | k8s-certs-generator.py:119-125 | updates the fields as `Topology.AdvertiseExternal` does |
| `Generator.CertsGenerator.AdvertiseInternalIpaddr` | k8s-certs-generator.py:127-133 | updates the fields as `Topology.AdvertiseInternal` does |
| `Generator.CertsGenerator.EtcdAltNames` | k8s-certs-generator.py:326-334 | the etcd name lists and loops give the labelled etcd list |
| `Generator.CertsGenerator.ApiserverAltNames` | k8s-certs-generator.py:451-468 | the API server name lists and loops give the labelled API server list |
| `Generator.CertsGenerator.GeneratorCa` | k8s-certs-generator.py:148-170 | runs the key, self-sign and optional show steps |
| `Generator.CertsGenerator.ShowCerts` | k8s-certs-generator.py:712-716 | runs the show step, which needs the certificate |
| `Generator.CertsGenerator.GenerateCaAll` | k8s-certs-generator.py:190-210 | runs the three CAs in order |
| `Generator.CertsGenerator.GenerateSaAll` | k8s-certs-generator.py:172-218 | runs the EC key and public-key steps |
| `Generator.CertsGenerator.GeneratorCsrConf` | k8s-certs-generator.py:220-288 | succeeds iff every subject and alternative-name value passes the interpolation check; then builds the declared document and writes it to `{path}/{name}.conf`, and otherwise writes nothing |
| `Generator.CertsGenerator.GeneratorCerts` | k8s-certs-generator.py:290-315 | runs the key, request, CA-signing and optional show steps |
| `Generator.CertsGenerator.GenerateLeaf` | k8s-certs-generator.py:317-346 | runs a catalog leaf's config and certificate steps, with its names |
| `Generator.CertsGenerator.GenerateCertsEtcd` | k8s-certs-generator.py:317-347 | runs the etcd server leaf |
| `Generator.CertsGenerator.GenerateCertsEtcdPeer` | k8s-certs-generator.py:349-379 | runs the etcd peer leaf |
| `Generator.CertsGenerator.GenerateCertsEtcdHealthcheck` | k8s-certs-generator.py:381-406 | runs the etcd health-check client leaf |
| `Generator.CertsGenerator.GenerateCertsApiserverEtcd` | k8s-certs-generator.py:408-435 | runs the API server's etcd client leaf |
| `Generator.CertsGenerator.GenerateCertsApiserver` | k8s-certs-generator.py:437-487 | runs the API server leaf |
| `Generator.CertsGenerator.GenerateApiserverKubelet` | k8s-certs-generator.py:489-516 | runs the API server's kubelet client leaf |
| `Generator.CertsGenerator.GenerateFrontProxyKubelet` | k8s-certs-generator.py:518-543 | runs the front-proxy client leaf |
| `Generator.CertsGenerator.GenerateCertsAll` | k8s-certs-generator.py:545-553 | runs the seven leaves in catalog order |
| `Generator.CertsGenerator.GeneratorClusterConfig` | k8s-certs-generator.py:555-601 | renders the kubeconfig text from the three base64 texts, the common name and the internal address, and runs the write step that reads the CA certificate and the client key and certificate from `ssl`; once a master is registered the server is `https://{internal}:6443` with a set address |
| `Generator.CertsGenerator.GenerateClusterConfig` | k8s-certs-generator.py:603-636 | runs a user's leaf steps and then its kubeconfig step |
| `Generator.CertsGenerator.GenerateClusterConfigAdmin` | k8s-certs-generator.py:603-636 | runs the admin user |
| `Generator.CertsGenerator.GenerateClusterConfigControllerManager` | k8s-certs-generator.py:638-669 | runs the controller-manager user |
| `Generator.CertsGenerator.GenerateClusterConfigScheduler` | k8s-certs-generator.py:671-702 | runs the scheduler user |
| `Generator.CertsGenerator.GenerateClusterConfigAll` | k8s-certs-generator.py:704-707 | runs the three users in order |
| `Generator.CertsGenerator.Clear` | k8s-certs-generator.py:709-710 | removes the `ssl` tree |
| `Generator.CertsGenerator.Bootstrap` | k8s-certs-generator.py:775-779 | runs the plan in source order; it succeeds iff every request passes the interpolation check, and then leaves the old files plus the created ones outside `ssl`; otherwise the old files and the CA files remain |

## Left out

- The openssl invocations (RSA and EC key generation, request creation, self-signing,
  CA signing, `x509 -text`) are foreign calls. Each is a step that needs some files and
  creates others; a key, certificate or signature's content is not modelled.
- Every openssl run is assumed to succeed when its input files exist. A failure for
  another reason (a bad subject, a bad configuration) is not modelled.
- The filesystem is a set of (directory, name, extension) files. Directory creation by
  `_check_path`, its `TypeError` for a path that is not a directory, file contents and
  permissions are not modelled. The path strings are kept as `Plan.DirPath`.
- The CA serial file appears as an output of the signing step. Its numbering, and any
  concurrent signing, are not modelled because the tool is single-threaded.
- Base64 encoding and file reading are a parameter `b64` of the kubeconfig methods. No
  decode round-trip is claimed, since the code embeds `str(bytes)` and so writes the
  `b'...'` wrapper into the file.
- Logging (`get_logger` and every `logger` call) has no effect on the plan.
- The interactive `main` prompt loop is not modelled. Only its generation sequence is,
  as `Generator.CertsGenerator.Bootstrap`. One quirk of that loop: an empty answer for the
  validity gives 3640 days, not the 3650 it shows as the default.
- `Generator.CertsGenerator.Bootstrap`: takes the master registration as already done,
  as `main` does it before generation. A `ValueError` from a configuration write ends
  the program in the source; here the remaining steps are skipped, which leaves the same
  files.
- `Topology.AdvertiseInternal`: takes a string, so `advertise_internal_ipaddr(None)`, which
  in the source would unset the address and break `Topology.Valid` once a master is
  registered, cannot be written. `main` never makes that call.
- `IniConfig.AddSection`, `IniConfig.Set`: require the section to be absent, or present,
  respectively. `ConfigParser` raises an error otherwise, and the generator never
  triggers it.
- `IniConfig.Set`: does not check interpolation; `IniConfig.CheckedSet` adds the check.
  The fixed values of the `req`, `v3_ext` and `req_ext` sections go through the
  unchecked `set`, because `CsrConf.FixedValuesAccepted` proves they always pass.
- `IniConfig.InterpolationOk`: follows `BasicInterpolation.before_set` of Python's
  `configparser`, which is not part of this repository. `RawConfigParser.set` skips the
  check for an empty value, which passes it anyway.
- `Plan.Apply`: a configuration write that fails the check fails as a whole. In the
  source, `ValueError` ends the program before the file is opened, so the half-built
  parser is lost and no file is written; the model records a failed step and stops.
- The text serialization of the CSR configuration by `ConfigParser.write` is not
  modelled. The configuration is kept as its ordered section and key/value structure.
