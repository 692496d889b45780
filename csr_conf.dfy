/** The OpenSSL request configuration `generator_csr_conf` writes for every leaf
    certificate: sections `req`, `req_distinguished_name`, `v3_ext`, `alt_names` (only when
    there are subject alternative names) and `req_ext`, in that order. */
module CsrConf {
  import opened Common
  import opened IniConfig

  /** The fixed `req` section. */
  const ReqOptions: Options := [
    ("default_bits", "2048"),
    ("prompt", "no"),
    ("default_md", "sha256"),
    ("req_extensions", "req_ext"),
    ("distinguished_name", "req_distinguished_name")
  ]

  /** Distinguished-name keys and the subject fields they come from, in the order of the
      dictionary the generator iterates. */
  const DnFields: seq<(string, string)> := [
    ("C", "country"),
    ("ST", "state"),
    ("L", "city"),
    ("O", "organization"),
    ("OU", "organization_unit"),
    ("CN", "common_name")
  ]

  /** The value written for DN key `key`: a non-empty `common_name` argument overrides CN,
      a non-empty `organization` argument overrides O, anything else comes from the
      subject template. */
  function DnValue(kwargs: map<string, string>, cn: Option<string>, org: Option<string>,
                   key: string, field: string): (r: string)
    requires field in kwargs
    ensures key == "CN" && Truthy(cn) ==> r == cn.value
    ensures key == "O" && Truthy(org) ==> r == org.value
    ensures !(key == "CN" && Truthy(cn)) && !(key == "O" && Truthy(org)) ==> r == kwargs[field]
  {
    if key == "CN" && Truthy(cn) then cn.value
    else if key == "O" && Truthy(org) then org.value
    else kwargs[field]
  }

  /** One `set` per field present in the subject template, in field order. */
  function DnEntries(kwargs: map<string, string>, cn: Option<string>, org: Option<string>,
                     fields: seq<(string, string)>): Options
  {
    if fields == [] then []
    else
      var f := fields[|fields| - 1];
      DnEntries(kwargs, cn, org, fields[..|fields| - 1])
      + (if f.1 in kwargs then [(f.0, DnValue(kwargs, cn, org, f.0, f.1))] else [])
  }

  /** `extendedKeyUsage` by certificate kind (section 4.2.1.12 of RFC 5280). */
  function ExtendedKeyUsage(kind: Option<string>): (r: string)
    ensures r == "serverAuth" <==> kind == Some("server")
    ensures r == "clientAuth" <==> kind == Some("client")
    ensures r == "serverAuth,clientAuth" <==> kind != Some("server") && kind != Some("client")
  {
    if kind == Some("server") then "serverAuth"
    else if kind == Some("client") then "clientAuth"
    else "serverAuth,clientAuth"
  }

  /** The line that points both extension sections at `alt_names`. */
  const SubjectAltName: (string, string) := ("subjectAltName", "@alt_names")

  /** The `v3_ext` section: the fixed key usages, the kind's extended key usage and, when
      there are alternative names, the reference to them. */
  function V3ExtOptions(kind: Option<string>, hasAlt: bool): Options {
    [
      ("authorityKeyIdentifier", "keyid,issuer:always"),
      ("basicConstraints", "CA:FALSE"),
      ("keyUsage", "keyEncipherment,dataEncipherment"),
      ("extendedKeyUsage", ExtendedKeyUsage(kind))
    ] + (if hasAlt then [SubjectAltName] else [])
  }

  /** The `req_ext` section. */
  function ReqExtOptions(hasAlt: bool): Options {
    if hasAlt then [SubjectAltName] else []
  }

  /** The whole document for subject template `kwargs`, `common_name` argument `cn`,
      `organization` argument `org`, `kind` and the `alt_names` list `alt` (an absent list
      is the empty one: both are false in the source's `if alt_names`). The alternative
      names go through `set` one by one, so a repeated label keeps its first position
      and its last value. */
  function CsrDocument(kwargs: map<string, string>, cn: Option<string>, org: Option<string>,
                       kind: Option<string>, alt: Options): Config
  {
    var hasAlt := alt != [];
    [
      Section("req", ReqOptions),
      Section("req_distinguished_name", DnEntries(kwargs, cn, org, DnFields)),
      Section("v3_ext", V3ExtOptions(kind, hasAlt))
    ] + (if hasAlt then [Section("alt_names", SetOptions([], alt))] else [])
      + [Section("req_ext", ReqExtOptions(hasAlt))]
  }

  /** The arguments of one `generator_csr_conf` call other than the output path; they
      fix the document it writes. */
  datatype Request = Request(kwargs: map<string, string>, cn: Option<string>, org: Option<string>,
                             kind: Option<string>, alt: Options)

  function Document(r: Request): Config {
    CsrDocument(r.kwargs, r.cn, r.org, r.kind, r.alt)
  }

  /** Every value `generator_csr_conf` hands to `set` passes the interpolation check of
      `ConfigParser`; otherwise one of its `set` calls raises `ValueError` and nothing is
      written. The fixed values always pass (`FixedValuesAccepted`), so only the subject
      and the alternative names matter. */
  predicate CsrAccepted(kwargs: map<string, string>, cn: Option<string>, org: Option<string>,
                        alt: Options)
  {
    Accepted(DnEntries(kwargs, cn, org, DnFields)) && Accepted(alt)
  }

  predicate Interpolatable(r: Request) {
    CsrAccepted(r.kwargs, r.cn, r.org, r.alt)
  }

  /** The fixed values of the `req`, `v3_ext` and `req_ext` sections contain no `%`, so
      their `set` calls never raise. */
  lemma FixedValuesAccepted(kind: Option<string>, hasAlt: bool)
    ensures Accepted(ReqOptions)
    ensures Accepted(V3ExtOptions(kind, hasAlt))
    ensures Accepted(ReqExtOptions(hasAlt))
  {
    forall i | 0 <= i < |ReqOptions| ensures InterpolationOk(ReqOptions[i].1) {
      PlainAccepted(ReqOptions[i].1);
    }
    var v3 := V3ExtOptions(kind, hasAlt);
    forall i | 0 <= i < |v3| ensures InterpolationOk(v3[i].1) {
      PlainAccepted(v3[i].1);
    }
    PlainAccepted(SubjectAltName.1);
  }

  /** Sections come in the order `req`, `req_distinguished_name`, `v3_ext`, `alt_names`,
      `req_ext`, with `alt_names` only when the list of names is non-empty. */
  lemma CsrSections(kwargs: map<string, string>, cn: Option<string>, org: Option<string>,
                    kind: Option<string>, alt: Options)
    ensures SectionNames(CsrDocument(kwargs, cn, org, kind, alt))
         == ["req", "req_distinguished_name", "v3_ext"]
            + (if alt != [] then ["alt_names"] else []) + ["req_ext"]
  {
    var names := SectionNames(CsrDocument(kwargs, cn, org, kind, alt));
    assert names == ["req", "req_distinguished_name", "v3_ext"]
                    + (if alt != [] then ["alt_names"] else []) + ["req_ext"];
  }

  /** `has_section('alt_names')` holds exactly when the list of names is non-empty. */
  lemma CsrHasAltNames(kwargs: map<string, string>, cn: Option<string>, org: Option<string>,
                       kind: Option<string>, alt: Options)
    ensures HasSection(CsrDocument(kwargs, cn, org, kind, alt), "alt_names") <==> alt != []
  {
    var r := CsrDocument(kwargs, cn, org, kind, alt);
    if alt != [] {
      assert r[3].name == "alt_names";
    }
  }

  /** The fixed request options and the subject come out as listed. */
  lemma CsrReqAndSubject(kwargs: map<string, string>, cn: Option<string>, org: Option<string>,
                         kind: Option<string>, alt: Options)
    ensures Items(CsrDocument(kwargs, cn, org, kind, alt), "req") == ReqOptions
    ensures Items(CsrDocument(kwargs, cn, org, kind, alt), "req_distinguished_name")
         == DnEntries(kwargs, cn, org, DnFields)
  {
    var r := CsrDocument(kwargs, cn, org, kind, alt);
    ItemsAt(r, 1);
  }

  /** `extendedKeyUsage` in `v3_ext` is chosen by the kind alone. */
  lemma CsrExtendedKeyUsage(kwargs: map<string, string>, cn: Option<string>, org: Option<string>,
                            kind: Option<string>, alt: Options)
    ensures Get(CsrDocument(kwargs, cn, org, kind, alt), "v3_ext", "extendedKeyUsage")
         == Some(ExtendedKeyUsage(kind))
  {
    var r := CsrDocument(kwargs, cn, org, kind, alt);
    assert r[2].name == "v3_ext";
    ItemsAt(r, 2);
    FindAt(r[2].options, 3);
  }

  /** `v3_ext` points at `@alt_names` exactly when there are names, and has no
      `subjectAltName` otherwise. */
  lemma CsrV3SubjectAltName(kwargs: map<string, string>, cn: Option<string>, org: Option<string>,
                            kind: Option<string>, alt: Options)
    ensures Get(CsrDocument(kwargs, cn, org, kind, alt), "v3_ext", "subjectAltName")
         == if alt != [] then Some("@alt_names") else None
  {
    var r := CsrDocument(kwargs, cn, org, kind, alt);
    assert r[2].name == "v3_ext";
    ItemsAt(r, 2);
    V3ExtWithAltNames(kind);
    if alt != [] {
      FindAt(r[2].options, 4);
    }
  }

  /** `req_ext` points at `@alt_names` exactly when there are names, and is empty
      otherwise. */
  lemma CsrReqExtSubjectAltName(kwargs: map<string, string>, cn: Option<string>, org: Option<string>,
                                kind: Option<string>, alt: Options)
    ensures Get(CsrDocument(kwargs, cn, org, kind, alt), "req_ext", "subjectAltName")
         == if alt != [] then Some("@alt_names") else None
  {
    var r := CsrDocument(kwargs, cn, org, kind, alt);
    assert r[|r| - 1].name == "req_ext";
    ItemsAt(r, |r| - 1);
  }

  /** With distinct labels, as the SAN builders produce, the `alt_names` section holds
      the names exactly as given. */
  lemma CsrAltNames(kwargs: map<string, string>, cn: Option<string>, org: Option<string>,
                    kind: Option<string>, alt: Options)
    requires alt != [] && KeysDistinct(alt)
    ensures Items(CsrDocument(kwargs, cn, org, kind, alt), "alt_names") == alt
  {
    var r := CsrDocument(kwargs, cn, org, kind, alt);
    ItemsAt(r, 3);
    SetOptionsFresh([], alt);
  }

  /** Every key in the distinguished-name section is one of the field keys. */
  lemma {:induction false} DnEntriesKeys(kwargs: map<string, string>, cn: Option<string>, org: Option<string>,
                                         fields: seq<(string, string)>)
    ensures forall k :: k in Keys(DnEntries(kwargs, cn, org, fields)) ==> k in Keys(fields)
  {
    if fields != [] {
      var init, f := fields[..|fields| - 1], fields[|fields| - 1];
      DnEntriesKeys(kwargs, cn, org, init);
      var e := DnEntries(kwargs, cn, org, init);
      var tail: Options := if f.1 in kwargs then [(f.0, DnValue(kwargs, cn, org, f.0, f.1))] else [];
      assert DnEntries(kwargs, cn, org, fields) == e + tail;
      KeysConcat(e, tail);
      assert fields == init + [f];
      KeysConcat(init, [f]);
      forall k | k in Keys(e + tail) ensures k in Keys(fields) {
        if k !in Keys(e) {
          assert k in Keys(tail);
          assert Keys(tail) == [f.0];
        }
      }
    }
  }

  /** The subject values come from the template and the two arguments, so they are free
      of `%` when those are. */
  lemma {:induction false} DnEntriesPlain(kwargs: map<string, string>, cn: Option<string>, org: Option<string>,
                                          fields: seq<(string, string)>)
    requires forall k :: k in kwargs ==> '%' !in kwargs[k]
    requires cn.Some? ==> '%' !in cn.value
    requires org.Some? ==> '%' !in org.value
    ensures forall i :: 0 <= i < |DnEntries(kwargs, cn, org, fields)| ==> '%' !in DnEntries(kwargs, cn, org, fields)[i].1
  {
    if fields != [] {
      DnEntriesPlain(kwargs, cn, org, fields[..|fields| - 1]);
    }
  }

  /** When every field is in the template, there is one entry per field, in field order. */
  lemma {:induction false} DnEntriesAllPresent(kwargs: map<string, string>, cn: Option<string>, org: Option<string>,
                                               fields: seq<(string, string)>)
    requires forall i :: 0 <= i < |fields| ==> fields[i].1 in kwargs
    ensures |DnEntries(kwargs, cn, org, fields)| == |fields|
    ensures forall i :: 0 <= i < |fields| ==>
              DnEntries(kwargs, cn, org, fields)[i] == (fields[i].0, DnValue(kwargs, cn, org, fields[i].0, fields[i].1))
  {
    if fields != [] {
      var init := fields[..|fields| - 1];
      assert forall i :: 0 <= i < |init| ==> init[i] == fields[i];
      DnEntriesAllPresent(kwargs, cn, org, init);
    }
  }

  /** With all six subject fields in the template, as `_init_kwargs` guarantees, the
      subject is C, ST, L, O, OU, CN in that order, with O and CN overridden by non-empty
      arguments. */
  lemma CsrSubjectOfFullTemplate(kwargs: map<string, string>, cn: Option<string>, org: Option<string>)
    requires "country" in kwargs && "state" in kwargs && "city" in kwargs
    requires "organization" in kwargs && "organization_unit" in kwargs && "common_name" in kwargs
    ensures DnEntries(kwargs, cn, org, DnFields) == [
      ("C", kwargs["country"]),
      ("ST", kwargs["state"]),
      ("L", kwargs["city"]),
      ("O", if Truthy(org) then org.value else kwargs["organization"]),
      ("OU", kwargs["organization_unit"]),
      ("CN", if Truthy(cn) then cn.value else kwargs["common_name"])
    ]
  {
    DnEntriesAllPresent(kwargs, cn, org, DnFields);
  }

  /** A non-empty `common_name` argument hides the template's `common_name`: whatever the
      template holds there, the subject is the same. */
  lemma {:induction false} DnEntriesTemplateCn(kwargs: map<string, string>, cn: Option<string>, org: Option<string>,
                                               fields: seq<(string, string)>, v: string)
    requires Truthy(cn) && "common_name" in kwargs
    requires forall i :: 0 <= i < |fields| && fields[i].1 == "common_name" ==> fields[i].0 == "CN"
    ensures DnEntries(kwargs["common_name" := v], cn, org, fields) == DnEntries(kwargs, cn, org, fields)
  {
    if fields != [] {
      var init := fields[..|fields| - 1];
      assert forall i :: 0 <= i < |init| ==> init[i] == fields[i];
      DnEntriesTemplateCn(kwargs, cn, org, init, v);
    }
  }

  /** `add_section(name)` followed by `set(name, k, v)` for each pair in order, stopping
      at the first value `set` refuses. */
  method AddAndSet(conf0: Config, name: string, pairs: Options) returns (ok: bool, conf: Config)
    requires !HasSection(conf0, name)
    ensures ok <==> Accepted(pairs)
    ensures ok ==> conf == conf0 + [Section(name, SetOptions([], pairs))]
  {
    conf := AddSection(conf0, name);
    var n := |conf0|;
    assert forall j :: 0 <= j < n ==> conf[j] == conf0[j];
    var i := 0;
    while i < |pairs|
      invariant 0 <= i <= |pairs|
      invariant Accepted(pairs[..i])
      invariant conf == conf0 + [Section(name, SetOptions([], pairs[..i]))]
    {
      SetAt(conf, n, pairs[i].0, pairs[i].1);
      var next := CheckedSet(conf, name, pairs[i].0, pairs[i].1);
      if next.None? {
        return false, conf;
      }
      conf := next.value;
      assert pairs[..i + 1] == pairs[..i] + [pairs[i]];
      AcceptedSnoc(pairs[..i], pairs[i]);
      i := i + 1;
    }
    assert pairs[..i] == pairs;
    ok := true;
  }

  /** A section of fixed values, which `set` always accepts (`FixedValuesAccepted`):
      `add_section(name)`, then one `set` per pair; with distinct keys the section holds
      the pairs as given. */
  method AddFixedSection(conf0: Config, name: string, pairs: Options) returns (conf: Config)
    requires !HasSection(conf0, name)
    requires KeysDistinct(pairs)
    ensures conf == conf0 + [Section(name, pairs)]
  {
    conf := AddSection(conf0, name);
    var n := |conf0|;
    assert forall j :: 0 <= j < n ==> conf[j] == conf0[j];
    var i := 0;
    while i < |pairs|
      invariant 0 <= i <= |pairs|
      invariant conf == conf0 + [Section(name, SetOptions([], pairs[..i]))]
    {
      SetAt(conf, n, pairs[i].0, pairs[i].1);
      conf := Set(conf, name, pairs[i].0, pairs[i].1);
      assert pairs[..i + 1][..i] == pairs[..i];
      i := i + 1;
    }
    assert pairs[..i] == pairs;
    SetOptionsFresh([], pairs);
    assert [] + pairs == pairs;
  }

  /** The entries of a prefix of the fields are a prefix of the entries. */
  lemma {:induction false} DnEntriesPrefix(kwargs: map<string, string>, cn: Option<string>, org: Option<string>,
                                           fields: seq<(string, string)>, j: nat)
    requires j <= |fields|
    ensures DnEntries(kwargs, cn, org, fields[..j]) <= DnEntries(kwargs, cn, org, fields)
  {
    if j < |fields| {
      var init := fields[..|fields| - 1];
      assert init[..j] == fields[..j];
      DnEntriesPrefix(kwargs, cn, org, init, j);
    } else {
      assert fields[..j] == fields;
    }
  }

  /** One more field adds its entry when the template has it, and nothing otherwise. */
  lemma DnEntriesStep(kwargs: map<string, string>, cn: Option<string>, org: Option<string>,
                      fields: seq<(string, string)>, i: nat)
    requires i < |fields|
    ensures fields[i].1 in kwargs ==>
      DnEntries(kwargs, cn, org, fields[..i + 1])
        == DnEntries(kwargs, cn, org, fields[..i]) + [(fields[i].0, DnValue(kwargs, cn, org, fields[i].0, fields[i].1))]
    ensures fields[i].1 !in kwargs ==>
      DnEntries(kwargs, cn, org, fields[..i + 1]) == DnEntries(kwargs, cn, org, fields[..i])
  {
    assert fields[..i + 1][..i] == fields[..i];
  }

  /** A field whose value `set` refuses makes the whole subject refused. */
  lemma DnEntriesRefused(kwargs: map<string, string>, cn: Option<string>, org: Option<string>,
                         fields: seq<(string, string)>, i: nat)
    requires i < |fields| && fields[i].1 in kwargs
    requires !InterpolationOk(DnValue(kwargs, cn, org, fields[i].0, fields[i].1))
    ensures !Accepted(DnEntries(kwargs, cn, org, fields))
  {
    var entries := DnEntries(kwargs, cn, org, fields[..i + 1]);
    assert fields[..i + 1][..i] == fields[..i];
    assert entries[|entries| - 1] == (fields[i].0, DnValue(kwargs, cn, org, fields[i].0, fields[i].1));
    DnEntriesPrefix(kwargs, cn, org, fields, i + 1);
  }

  /** The distinguished-name section: `add_section`, then the field loop over the
      source's fixed field table. */
  method AddSubject(conf0: Config, kwargs: map<string, string>, cn: Option<string>, org: Option<string>)
    returns (ok: bool, conf: Config)
    requires !HasSection(conf0, "req_distinguished_name")
    ensures ok <==> Accepted(DnEntries(kwargs, cn, org, DnFields))
    ensures ok ==> conf == conf0 + [Section("req_distinguished_name", DnEntries(kwargs, cn, org, DnFields))]
  {
    DnFieldsDistinct();
    ok, conf := AddDnSection(conf0, kwargs, cn, org, DnFields);
  }

  lemma DnFieldsDistinct()
    ensures KeysDistinct(DnFields)
  {
  }

  /** The distinguished-name loop: one `set` per subject field present in `kwargs`,
      stopping at the first value `set` refuses. */
  method AddDnSection(conf0: Config, kwargs: map<string, string>, cn: Option<string>, org: Option<string>,
                      fields: seq<(string, string)>)
    returns (ok: bool, conf: Config)
    requires !HasSection(conf0, "req_distinguished_name")
    requires KeysDistinct(fields)
    ensures ok <==> Accepted(DnEntries(kwargs, cn, org, fields))
    ensures ok ==> conf == conf0 + [Section("req_distinguished_name", DnEntries(kwargs, cn, org, fields))]
  {
    conf := AddSection(conf0, "req_distinguished_name");
    var n := |conf0|;
    assert forall j :: 0 <= j < n ==> conf[j] == conf0[j];
    var i := 0;
    assert fields[..i] == [];
    while i < |fields|
      invariant 0 <= i <= |fields|
      invariant Accepted(DnEntries(kwargs, cn, org, fields[..i]))
      invariant conf == conf0 + [Section("req_distinguished_name", DnEntries(kwargs, cn, org, fields[..i]))]
    {
      var key, field := fields[i].0, fields[i].1;
      DnEntriesStep(kwargs, cn, org, fields, i);
      if field in kwargs {
        var value := DnValue(kwargs, cn, org, key, field);
        DnEntriesKeys(kwargs, cn, org, fields[..i]);
        FreshKeyAt(fields, i);
        SetAt(conf, n, key, value);
        AcceptedSnoc(DnEntries(kwargs, cn, org, fields[..i]), (key, value));
        var next := CheckedSet(conf, "req_distinguished_name", key, value);
        if next.None? {
          DnEntriesRefused(kwargs, cn, org, fields, i);
          return false, conf;
        }
        SetOptionNew(conf[n].options, key, value);
        conf := next.value;
      }
      i := i + 1;
    }
    assert fields[..i] == fields;
    ok := true;
  }

  /** The `req_ext` section, and `subjectAltName` in both extension sections when the
      configuration already has an `alt_names` section. `@alt_names` always passes the
      interpolation check (`FixedValuesAccepted`). */
  method AddReqExt(conf0: Config) returns (conf: Config)
    requires |conf0| >= 3 && conf0[2].name == "v3_ext"
    requires conf0[0].name != "v3_ext" && conf0[1].name != "v3_ext"
    requires !HasSection(conf0, "req_ext")
    requires SubjectAltName.0 !in Keys(conf0[2].options)
    ensures HasSection(conf0, "alt_names")
            ==> conf == conf0[2 := Section("v3_ext", conf0[2].options + [SubjectAltName])]
                       + [Section("req_ext", [SubjectAltName])]
    ensures !HasSection(conf0, "alt_names") ==> conf == conf0 + [Section("req_ext", [])]
  {
    var san := SubjectAltName;
    conf := AddSection(conf0, "req_ext");
    if HasSection(conf, "alt_names") {
      assert HasSection(conf0, "alt_names");
      SetAt(conf, 2, san.0, san.1);
      SetOptionNew(conf[2].options, san.0, san.1);
      conf := Set(conf, "v3_ext", san.0, san.1);
      assert forall j :: 0 <= j < |conf| - 1 ==> conf[j].name != "req_ext";
      SetAt(conf, |conf| - 1, san.0, san.1);
      conf := Set(conf, "req_ext", san.0, san.1);
    } else {
      assert !HasSection(conf0, "alt_names") by {
        assert forall j :: 0 <= j < |conf0| ==> conf[j] == conf0[j];
      }
    }
  }

  /** `subjectAltName` is not among the fixed `v3_ext` keys, so setting it appends it. */
  lemma V3ExtWithAltNames(kind: Option<string>)
    ensures KeysDistinct(V3ExtOptions(kind, false))
    ensures SubjectAltName.0 !in Keys(V3ExtOptions(kind, false))
    ensures V3ExtOptions(kind, true) == V3ExtOptions(kind, false) + [SubjectAltName]
  {
    assert Keys(V3ExtOptions(kind, false))
        == ["authorityKeyIdentifier", "basicConstraints", "keyUsage", "extendedKeyUsage"];
  }

  /** Appending `subjectAltName` to `v3_ext` after `alt_names` is added gives the
      extension sections of the document. */
  lemma ExtensionsWithAltNames(conf0: Config, kind: Option<string>, alt: Options)
    requires |conf0| == 2
    ensures var v3 := V3ExtOptions(kind, false);
      (conf0 + [Section("v3_ext", v3)] + [Section("alt_names", SetOptions([], alt))])
        [2 := Section("v3_ext", v3 + [SubjectAltName])] + [Section("req_ext", [SubjectAltName])]
      == conf0 + [Section("v3_ext", V3ExtOptions(kind, true))]
         + [Section("alt_names", SetOptions([], alt))] + [Section("req_ext", ReqExtOptions(true))]
  {
    V3ExtWithAltNames(kind);
  }

  /** The extension sections: `v3_ext`, `alt_names` when there are names, and `req_ext`,
      stopping at the first value `set` refuses. */
  method AddExtensions(conf0: Config, kind: Option<string>, alt: Options) returns (ok: bool, conf: Config)
    requires |conf0| == 2 && conf0[0].name == "req" && conf0[1].name == "req_distinguished_name"
    ensures ok <==> Accepted(alt)
    ensures ok ==> conf == conf0 + [Section("v3_ext", V3ExtOptions(kind, alt != []))]
                   + (if alt != [] then [Section("alt_names", SetOptions([], alt))] else [])
                   + [Section("req_ext", ReqExtOptions(alt != []))]
  {
    var v3 := V3ExtOptions(kind, false);
    V3ExtWithAltNames(kind);
    conf := AddFixedSection(conf0, "v3_ext", v3);
    var base := conf;
    assert base[2].name == "v3_ext";
    if alt == [] {
      ok := true;
      assert !HasSection(base, "alt_names") by {
        assert forall j :: 0 <= j < |base| ==> base[j].name in {"req", "req_distinguished_name", "v3_ext"};
      }
      conf := AddReqExt(base);
    } else {
      ok, conf := AddAndSet(base, "alt_names", alt);
      if ok {
        var mid := conf;
        assert mid[3].name == "alt_names";
        conf := AddReqExt(mid);
        ExtensionsWithAltNames(conf0, kind, alt);
      }
    }
  }

  lemma ReqKeysDistinct()
    ensures KeysDistinct(ReqOptions)
  {
  }

  /** `generator_csr_conf` without the final file write: successive `add_section` and `set`
      calls on an empty parser. It succeeds exactly when every value passes the
      interpolation check, and then ends in exactly the document above. */
  method BuildCsrConf(kwargs: map<string, string>, cn: Option<string>, org: Option<string>,
                      kind: Option<string>, alt: Options) returns (ok: bool, conf: Config)
    ensures ok <==> CsrAccepted(kwargs, cn, org, alt)
    ensures ok ==> conf == CsrDocument(kwargs, cn, org, kind, alt)
  {
    ReqKeysDistinct();
    conf := AddFixedSection([], "req", ReqOptions);
    assert conf == [Section("req", ReqOptions)];
    assert !HasSection(conf, "req_distinguished_name") by {
      assert conf[0].name == "req";
    }
    ok, conf := AddSubject(conf, kwargs, cn, org);
    if !ok {
      return;
    }
    ok, conf := AddExtensions(conf, kind, alt);
    CsrDocumentParts(kwargs, cn, org, kind, alt);
  }

  /** The document is the `req` and subject sections followed by the extension sections. */
  lemma CsrDocumentParts(kwargs: map<string, string>, cn: Option<string>, org: Option<string>,
                         kind: Option<string>, alt: Options)
    ensures CsrDocument(kwargs, cn, org, kind, alt)
         == [Section("req", ReqOptions), Section("req_distinguished_name", DnEntries(kwargs, cn, org, DnFields))]
            + [Section("v3_ext", V3ExtOptions(kind, alt != []))]
            + (if alt != [] then [Section("alt_names", SetOptions([], alt))] else [])
            + [Section("req_ext", ReqExtOptions(alt != []))]
  {
  }
}
