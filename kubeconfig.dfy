/** The kubeconfig files `generator_cluster_config` writes for the admin, the
    controller manager and the scheduler: a fixed YAML text with five slots (the cluster
    CA data, the API server URL, the user's common name, the client certificate data and
    the client key data). The certificate and key data are the base64 text of the files,
    taken here as given. */
module Kubeconfig {
  import opened Common
  import opened Text

  datatype Fields = Fields(caData: string, server: string, cn: string, certData: string, keyData: string)

  const CaPrefix := "    certificate-authority-data: "
  const ServerPrefix := "    server: "
  const UserPrefix := "    user: "
  const CertPrefix := "    client-certificate-data: "
  const KeyPrefix := "    client-key-data: "

  /** The template, line by line, with its slots filled: always 19 lines. */
  function Lines(f: Fields): (r: seq<string>)
    ensures |r| == 19
  {
    [
      "apiVersion: v1",
      "clusters:",
      "- cluster:",
      CaPrefix + f.caData,
      ServerPrefix + f.server,
      "  name: kubernetes",
      "contexts:",
      "- context:",
      "    cluster: kubernetes",
      UserPrefix + f.cn,
      "  name: " + f.cn + "@kubernetes",
      "current-context: " + f.cn + "@kubernetes",
      "kind: Config",
      "preferences: {}",
      "users:",
      "- name: " + f.cn,
      "  user:",
      CertPrefix + f.certData,
      KeyPrefix + f.keyData
    ]
  }

  /** `template.format(...)`: the lines joined by newlines, with no newline at the end. */
  function Render(f: Fields): string {
    Join(Lines(f), '\n')
  }

  /** `str(b)` of a `bytes` value holding base64 text. The base64 alphabet needs no
      escaping, so Python prints the text between `b'` and `'`. */
  function BytesStr(b64: string): (r: string)
    ensures |r| == |b64| + 3
    ensures r[..2] == "b'" && r[2..|r| - 1] == b64 && r[|r| - 1] == '\''
  {
    "b'" + b64 + "'"
  }

  /** `'https://{}:6443'.format(self._advertise_internal_ipaddr)`: an unset address is
      printed as `None`. */
  function ApiServer(internal: Option<string>): (r: string)
    ensures internal.Some? ==> r == "https://" + internal.value + ":6443"
    ensures internal.None? ==> r == "https://None:6443"
  {
    "https://" + PyStr(internal) + ":6443"
  }

  /** The text of one cluster configuration file. */
  function ClusterConfig(caB64: string, certB64: string, keyB64: string, cn: string,
                         internal: Option<string>): string
  {
    Render(Fields(BytesStr(caB64), ApiServer(internal), cn, BytesStr(certB64), BytesStr(keyB64)))
  }

  /** Reads the five slots back out of a kubeconfig text; `None` when the text does not
      have the template's shape. */
  function Parse(text: string): (r: Option<Fields>)
    ensures r.Some? ==> Render(r.value) == text
  {
    var ls := Split(text, '\n');
    if |ls| != 19 then None
    else
      var ca := StripPrefix(ls[3], CaPrefix);
      var server := StripPrefix(ls[4], ServerPrefix);
      var cn := StripPrefix(ls[9], UserPrefix);
      var cert := StripPrefix(ls[17], CertPrefix);
      var key := StripPrefix(ls[18], KeyPrefix);
      if ca.None? || server.None? || cn.None? || cert.None? || key.None? then None
      else
        var f := Fields(ca.value, server.value, cn.value, cert.value, key.value);
        if ls == Lines(f) then
          JoinSplit(text, '\n');
          Some(f)
        else None
  }

  predicate OneLine(s: string) {
    '\n' !in s
  }

  /** With newline-free slots, every line of the template is newline-free. */
  lemma LinesOneLine(f: Fields)
    requires OneLine(f.caData) && OneLine(f.server) && OneLine(f.cn)
    requires OneLine(f.certData) && OneLine(f.keyData)
    ensures forall k :: 0 <= k < |Lines(f)| ==> '\n' !in Lines(f)[k]
  {
    var ls := Lines(f);
    forall k | 0 <= k < |ls| ensures '\n' !in ls[k] {
      if k in {3, 4, 9, 10, 11, 15, 17, 18} {
        SlotLineOneLine(f, k);
      } else {
        FixedLineOneLine(f, k);
      }
    }
  }

  lemma SlotLineOneLine(f: Fields, k: nat)
    requires OneLine(f.caData) && OneLine(f.server) && OneLine(f.cn)
    requires OneLine(f.certData) && OneLine(f.keyData)
    requires k in {3, 4, 9, 10, 11, 15, 17, 18}
    ensures '\n' !in Lines(f)[k]
  {
  }

  lemma FixedLineOneLine(f: Fields, k: nat)
    requires k < 19 && k !in {3, 4, 9, 10, 11, 15, 17, 18}
    ensures '\n' !in Lines(f)[k]
  {
  }

  /** Parsing a rendered file gives back its slots, as long as none of them holds a newline. */
  lemma ParseRender(f: Fields)
    requires OneLine(f.caData) && OneLine(f.server) && OneLine(f.cn)
    requires OneLine(f.certData) && OneLine(f.keyData)
    ensures Parse(Render(f)) == Some(f)
  {
    var ls := Lines(f);
    LinesOneLine(f);
    SplitJoin(ls, '\n');
    assert Split(Render(f), '\n') == ls;
    assert |ls| == 19;
    assert ls[3] == CaPrefix + f.caData && ls[4] == ServerPrefix + f.server;
    assert ls[9] == UserPrefix + f.cn;
    assert ls[17] == CertPrefix + f.certData && ls[18] == KeyPrefix + f.keyData;
    StripPrefixOfConcat(CaPrefix, f.caData);
    StripPrefixOfConcat(ServerPrefix, f.server);
    StripPrefixOfConcat(UserPrefix, f.cn);
    StripPrefixOfConcat(CertPrefix, f.certData);
    StripPrefixOfConcat(KeyPrefix, f.keyData);
  }

  /** Different slot values give different files. */
  lemma RenderInjective(f: Fields, g: Fields)
    requires OneLine(f.caData) && OneLine(f.server) && OneLine(f.cn)
    requires OneLine(f.certData) && OneLine(f.keyData)
    requires OneLine(g.caData) && OneLine(g.server) && OneLine(g.cn)
    requires OneLine(g.certData) && OneLine(g.keyData)
    requires Render(f) == Render(g)
    ensures f == g
  {
    ParseRender(f);
    ParseRender(g);
  }

  lemma BytesStrOneLine(b64: string)
    requires OneLine(b64)
    ensures OneLine(BytesStr(b64))
  {
    assert BytesStr(b64) == ['b', '\''] + b64 + ['\''];
  }

  /** A cluster configuration file splits back into the template's lines. */
  lemma ClusterConfigSplit(caB64: string, certB64: string, keyB64: string, cn: string,
                           internal: Option<string>)
    requires OneLine(caB64) && OneLine(certB64) && OneLine(keyB64) && OneLine(cn)
    requires OneLine(PyStr(internal))
    ensures Split(ClusterConfig(caB64, certB64, keyB64, cn, internal), '\n')
         == Lines(Fields(BytesStr(caB64), ApiServer(internal), cn, BytesStr(certB64), BytesStr(keyB64)))
  {
    var f := Fields(BytesStr(caB64), ApiServer(internal), cn, BytesStr(certB64), BytesStr(keyB64));
    BytesStrOneLine(caB64);
    BytesStrOneLine(certB64);
    BytesStrOneLine(keyB64);
    assert ApiServer(internal) == "https://" + (PyStr(internal) + ":6443");
    LinesOneLine(f);
    SplitJoin(Lines(f), '\n');
  }

  /** The lines of a cluster configuration file: the CA data and the client certificate
      and key data each wrapped in `b'...'`, the server at port 6443 of the internal
      advertise address, and the common name as the context's user, in the context name
      `{cn}@kubernetes`, as the current context and as the user's name. */
  lemma ClusterConfigLines(caB64: string, certB64: string, keyB64: string, cn: string,
                           internal: Option<string>)
    requires OneLine(caB64) && OneLine(certB64) && OneLine(keyB64) && OneLine(cn)
    requires OneLine(PyStr(internal))
    ensures var ls := Split(ClusterConfig(caB64, certB64, keyB64, cn, internal), '\n');
      && |ls| == 19
      && ls[3] == CaPrefix + "b'" + caB64 + "'"
      && ls[4] == ServerPrefix + "https://" + PyStr(internal) + ":6443"
      && ls[9] == UserPrefix + cn
      && ls[10] == "  name: " + cn + "@kubernetes"
      && ls[11] == "current-context: " + cn + "@kubernetes"
      && ls[15] == "- name: " + cn
      && ls[17] == CertPrefix + "b'" + certB64 + "'"
      && ls[18] == KeyPrefix + "b'" + keyB64 + "'"
  {
    ClusterConfigSplit(caB64, certB64, keyB64, cn, internal);
    WrappedLine(CaPrefix, caB64);
    WrappedLine(CertPrefix, certB64);
    WrappedLine(KeyPrefix, keyB64);
    assert ServerPrefix + ApiServer(internal) == ServerPrefix + "https://" + PyStr(internal) + ":6443";
  }

  /** A data line is its prefix followed by the base64 text in `b'...'`. */
  lemma WrappedLine(prefix: string, b64: string)
    ensures prefix + BytesStr(b64) == prefix + "b'" + b64 + "'"
  {
    assert BytesStr(b64) == "b'" + b64 + "'";
  }
}
