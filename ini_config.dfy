/** The part of Python's `configparser.ConfigParser` the CSR configuration is built with:
    an ordered list of named sections, each an ordered key/value list. `add_section`
    appends a section, `set` overwrites a key in place or appends it. The generator's
    subclass `MyConfigParser` makes `optionxform` the identity, so keys are stored
    with their case unchanged: here a key is stored exactly as given. */
module IniConfig {
  import opened Common
  import opened Text

  type Options = seq<(string, string)>

  datatype Section = Section(name: string, options: Options)

  type Config = seq<Section>

  function Keys(opts: Options): (r: seq<string>)
    ensures |r| == |opts|
    ensures forall i :: 0 <= i < |opts| ==> r[i] == opts[i].0
  {
    if opts == [] then [] else [opts[0].0] + Keys(opts[1..])
  }

  lemma KeysConcat(a: Options, b: Options)
    ensures Keys(a + b) == Keys(a) + Keys(b)
  {
    assert forall i :: 0 <= i < |a + b| ==> Keys(a + b)[i] == (Keys(a) + Keys(b))[i];
  }

  predicate KeysDistinct(opts: Options) {
    forall i, j :: 0 <= i < j < |opts| ==> opts[i].0 != opts[j].0
  }

  /** The value stored under `key`, as `conf.get(section, key)` reads it. */
  function Find(opts: Options, key: string): (r: Option<string>)
    ensures r.None? <==> key !in Keys(opts)
    ensures r.Some? ==> (key, r.value) in opts
  {
    if opts == [] then None
    else if opts[0].0 == key then Some(opts[0].1)
    else Find(opts[1..], key)
  }

  /** `conf.set(section, key, value)` on one section's options: an existing key keeps its
      position and takes the new value, a new key goes last. */
  function SetOption(opts: Options, key: string, value: string): (r: Options)
    ensures |r| == if key in Keys(opts) then |opts| else |opts| + 1
  {
    if opts == [] then [(key, value)]
    else if opts[0].0 == key then [(key, value)] + opts[1..]
    else [opts[0]] + SetOption(opts[1..], key, value)
  }

  /** After `set`, the key reads back the new value and every other key its old one. */
  lemma {:induction false} SetOptionFind(opts: Options, key: string, value: string, k: string)
    ensures Find(SetOption(opts, key, value), k) == if k == key then Some(value) else Find(opts, k)
  {
    if opts != [] && opts[0].0 != key {
      SetOptionFind(opts[1..], key, value, k);
    }
  }

  /** `set` keeps the key order, adding a new key at the end. */
  lemma {:induction false} SetOptionKeys(opts: Options, key: string, value: string)
    ensures Keys(SetOption(opts, key, value))
         == if key in Keys(opts) then Keys(opts) else Keys(opts) + [key]
  {
    if opts != [] && opts[0].0 != key {
      SetOptionKeys(opts[1..], key, value);
      assert Keys(opts) == [opts[0].0] + Keys(opts[1..]);
      assert Keys(SetOption(opts, key, value)) == [opts[0].0] + Keys(SetOption(opts[1..], key, value));
    } else if opts != [] {
      assert Keys(SetOption(opts, key, value)) == [key] + Keys(opts[1..]);
    }
  }

  /** Setting a key that is not there yet appends it. */
  lemma {:induction false} SetOptionNew(opts: Options, key: string, value: string)
    requires key !in Keys(opts)
    ensures SetOption(opts, key, value) == opts + [(key, value)]
  {
    if opts != [] {
      assert opts[0].0 == Keys(opts)[0];
      assert Keys(opts[1..]) == Keys(opts)[1..];
      SetOptionNew(opts[1..], key, value);
      assert [opts[0]] + (opts[1..] + [(key, value)]) == opts + [(key, value)];
    }
  }

  function SectionNames(c: Config): (r: seq<string>)
    ensures |r| == |c|
    ensures forall i :: 0 <= i < |c| ==> r[i] == c[i].name
  {
    if c == [] then [] else [c[0].name] + SectionNames(c[1..])
  }

  predicate HasSection(c: Config, name: string) {
    exists i :: 0 <= i < |c| && c[i].name == name
  }

  /** Position of the first section called `name`. */
  function SectionIndex(c: Config, name: string): (i: nat)
    requires HasSection(c, name)
    ensures i < |c| && c[i].name == name
    ensures forall j :: 0 <= j < i ==> c[j].name != name
  {
    if c[0].name == name then 0
    else
      assert HasSection(c[1..], name) by {
        var k :| 0 <= k < |c| && c[k].name == name;
        assert c[1..][k - 1].name == name;
      }
      1 + SectionIndex(c[1..], name)
  }

  /** The options of section `name` (empty when there is no such section). */
  function Items(c: Config, name: string): Options {
    if c == [] then []
    else if c[0].name == name then c[0].options
    else Items(c[1..], name)
  }

  /** The options of the first section called `c[i].name` are those of `c[i]`. */
  lemma {:induction false} ItemsAt(c: Config, i: nat)
    requires i < |c|
    requires forall j :: 0 <= j < i ==> c[j].name != c[i].name
    ensures Items(c, c[i].name) == c[i].options
  {
    if i > 0 {
      var tail := c[1..];
      assert tail[i - 1] == c[i];
      ItemsAt(tail, i - 1);
    }
  }

  /** A section that is not there has no options. */
  lemma {:induction false} ItemsMissing(c: Config, name: string)
    requires !HasSection(c, name)
    ensures Items(c, name) == []
  {
    if c != [] {
      assert c[0].name != name;
      assert forall k :: 0 <= k < |c[1..]| ==> c[1..][k] == c[k + 1];
      ItemsMissing(c[1..], name);
    }
  }

  /** The options of any section, present or not. */
  lemma ItemsIndex(c: Config, name: string)
    ensures Items(c, name) == if HasSection(c, name) then c[SectionIndex(c, name)].options else []
  {
    if HasSection(c, name) {
      ItemsAt(c, SectionIndex(c, name));
    } else {
      ItemsMissing(c, name);
    }
  }

  /** The value of the first option called `opts[i].0` is that of `opts[i]`. */
  lemma {:induction false} FindAt(opts: Options, i: nat)
    requires i < |opts|
    requires forall j :: 0 <= j < i ==> opts[j].0 != opts[i].0
    ensures Find(opts, opts[i].0) == Some(opts[i].1)
  {
    if i > 0 {
      assert opts[1..][i - 1] == opts[i];
      assert forall j :: 0 <= j < i - 1 ==> opts[1..][j] == opts[j + 1];
      FindAt(opts[1..], i - 1);
    }
  }

  /** In a list of options with distinct keys, no earlier option has the key of `opts[i]`. */
  lemma FreshKeyAt(opts: Options, i: nat)
    requires KeysDistinct(opts) && i < |opts|
    ensures opts[i].0 !in Keys(opts[..i])
  {
    var ks := Keys(opts[..i]);
    assert forall m :: 0 <= m < |ks| ==> ks[m] == opts[m].0;
  }

  /** `conf.add_section(name)`: a new, empty section goes last. `ConfigParser` raises
      `DuplicateSectionError` for a name already present; the generator never adds a
      section twice. */
  function AddSection(c: Config, name: string): (r: Config)
    requires !HasSection(c, name)
    ensures HasSection(r, name) && SectionIndex(r, name) == |c|
  {
    var r := c + [Section(name, [])];
    assert r[|c|].name == name;
    assert forall j :: 0 <= j < |c| ==> r[j] == c[j];
    r
  }

  /** `conf.set(section, key, value)`: the first section of that name has the option set,
      every other section is left alone. `ConfigParser` raises `NoSectionError` for a
      missing section; the generator only sets keys of sections it has added. */
  function Set(c: Config, section: string, key: string, value: string): (r: Config)
    requires HasSection(c, section)
    ensures |r| == |c|
    ensures forall j :: 0 <= j < |c| ==> r[j].name == c[j].name
  {
    var i := SectionIndex(c, section);
    c[i := Section(section, SetOption(c[i].options, key, value))]
  }

  /** `set` on the first section called `c[i].name` rewrites that section only. */
  lemma SetAt(c: Config, i: nat, key: string, value: string)
    requires i < |c|
    requires forall j :: 0 <= j < i ==> c[j].name != c[i].name
    ensures HasSection(c, c[i].name)
    ensures Set(c, c[i].name, key, value) == c[i := Section(c[i].name, SetOption(c[i].options, key, value))]
  {
    assert HasSection(c, c[i].name);
    var k := SectionIndex(c, c[i].name);
    assert !(k < i) && !(i < k);
  }

  /** `add_section` gives the new section no options and leaves every other section as
      it was. */
  lemma AddSectionItems(c: Config, name: string, s: string)
    requires !HasSection(c, name)
    ensures Items(AddSection(c, name), s) == if s == name then [] else Items(c, s)
  {
    var r := AddSection(c, name);
    if s == name {
      ItemsAt(r, |c|);
    } else {
      ItemsIndex(c, s);
      ItemsIndex(r, s);
      assert forall k :: 0 <= k < |c| ==> r[k] == c[k];
      if HasSection(c, s) {
        ItemsAt(r, SectionIndex(c, s));
      }
    }
  }

  /** `set` keeps the order of sections, sets `key` in section `section` as `SetOption` does
      and leaves every other section as it was. */
  lemma SetContents(c: Config, section: string, key: string, value: string, s: string)
    requires HasSection(c, section)
    ensures SectionNames(Set(c, section, key, value)) == SectionNames(c)
    ensures Items(Set(c, section, key, value), s)
         == if s == section then SetOption(Items(c, section), key, value) else Items(c, s)
  {
    var r := Set(c, section, key, value);
    var i := SectionIndex(c, section);
    assert SectionNames(r) == SectionNames(c);
    if s == section {
      ItemsAt(c, i);
      ItemsAt(r, i);
    } else {
      SameNames(c, r, s);
      ItemsIndex(c, s);
      ItemsIndex(r, s);
    }
  }

  /** Two configurations with the same section names find each name at the same place. */
  lemma SameNames(c: Config, r: Config, s: string)
    requires |r| == |c| && forall j :: 0 <= j < |c| ==> r[j].name == c[j].name
    ensures HasSection(r, s) <==> HasSection(c, s)
    ensures HasSection(c, s) ==> SectionIndex(r, s) == SectionIndex(c, s)
  {
    if HasSection(r, s) {
      var k :| 0 <= k < |r| && r[k].name == s;
      assert c[k].name == s;
    }
    if HasSection(c, s) {
      var k :| 0 <= k < |c| && c[k].name == s;
      assert r[k].name == s;
      var kc, kr := SectionIndex(c, s), SectionIndex(r, s);
      assert !(kr < kc) && !(kc < kr);
    }
  }

  /** `value.replace('%%', '')`: escaped percent signs dropped, pairs taken left to right. */
  function DropEscapes(s: string): (r: string)
    ensures forall c :: c in r ==> c in s
    decreases |s|
  {
    if s == [] then []
    else if |s| >= 2 && s[0] == '%' && s[1] == '%' then DropEscapes(s[2..])
    else [s[0]] + DropEscapes(s[1..])
  }

  /** The length of the `%(name)s` reference that `BasicInterpolation._KEYCRE`
      (`%\(([^)]+)\)s`) matches at the start of `s`: `%(`, a non-empty name without `)`,
      then `)s`. */
  function KeyRefLength(s: string): (r: Option<nat>)
    ensures r.Some? ==> 4 <= r.value <= |s| && s[0] == '%' && s[1] == '('
    ensures r.Some? ==> s[r.value - 2] == ')' && s[r.value - 1] == 's'
    ensures r.Some? ==> forall k :: 2 <= k < r.value - 2 ==> s[k] != ')'
  {
    if |s| >= 2 && s[0] == '%' && s[1] == '(' then
      match FirstIndexOf(s[2..], ')')
      case None => None
      case Some(j) =>
        if j >= 1 && j + 3 < |s| && s[j + 3] == 's' then
          assert s[2..][j] == s[j + 2];
          assert forall k :: 2 <= k < j + 2 ==> s[k] == s[2..][k - 2];
          Some(j + 4)
        else None
    else None
  }

  /** `_KEYCRE.sub('', s)`: every reference removed, matches taken left to right. */
  function DropKeys(s: string): (r: string)
    ensures forall c :: c in r ==> c in s
    decreases |s|
  {
    if s == [] then []
    else match KeyRefLength(s)
      case Some(n) => DropKeys(s[n..])
      case None => [s[0]] + DropKeys(s[1..])
  }

  /** `BasicInterpolation.before_set`, which `ConfigParser.set` runs on every non-empty
      value: with escapes and references removed no `%` may remain, or `set` raises
      `ValueError`. */
  predicate InterpolationOk(value: string) {
    '%' !in DropKeys(DropEscapes(value))
  }

  /** Text without `%`, which `set` always accepts (`PlainAccepted`). */
  type PlainText = s: string | '%' !in s

  /** `set` accepts every value in the list. */
  predicate Accepted(opts: Options) {
    forall i :: 0 <= i < |opts| ==> InterpolationOk(opts[i].1)
  }

  /** One more pair is accepted exactly when its value is. */
  lemma AcceptedSnoc(opts: Options, p: (string, string))
    ensures Accepted(opts + [p]) <==> Accepted(opts) && InterpolationOk(p.1)
  {
    assert (opts + [p])[|opts|] == p;
    assert forall i :: 0 <= i < |opts| ==> (opts + [p])[i] == opts[i];
  }

  /** `conf.set(section, key, value)` with its interpolation check: `None` where `set`
      raises `ValueError`. The check is skipped for the empty value, which passes it
      anyway. */
  function CheckedSet(c: Config, section: string, key: string, value: string): (r: Option<Config>)
    requires HasSection(c, section)
    ensures r.Some? <==> InterpolationOk(value)
    ensures r.Some? ==> r.value == Set(c, section, key, value)
  {
    if value != "" && !InterpolationOk(value) then None
    else Some(Set(c, section, key, value))
  }

  /** Doubling every `%`, as a caller must to store a literal one. */
  function Escape(s: string): (r: string)
    ensures |r| >= |s|
  {
    if s == [] then []
    else (if s[0] == '%' then "%%" else [s[0]]) + Escape(s[1..])
  }

  /** An escaped value always passes the check. */
  lemma {:induction false} EscapeAccepted(s: string)
    ensures '%' !in DropEscapes(Escape(s))
    ensures InterpolationOk(Escape(s))
  {
    if s != [] {
      EscapeAccepted(s[1..]);
      var e := Escape(s);
      if s[0] == '%' {
        assert e == "%%" + Escape(s[1..]);
        assert e[2..] == Escape(s[1..]);
      } else {
        assert e == [s[0]] + Escape(s[1..]);
        assert e[1..] == Escape(s[1..]);
      }
    }
  }

  /** A `%`-free prefix passes through the removal of escapes unchanged. */
  lemma {:induction false} PlainPrefixEscapes(p: string, t: string)
    requires '%' !in p
    ensures DropEscapes(p + t) == p + DropEscapes(t)
  {
    if p == [] {
      assert p + t == t;
    } else {
      var s := p + t;
      assert s[0] == p[0] && s[0] != '%';
      assert s[1..] == p[1..] + t;
      assert DropEscapes(s) == [p[0]] + DropEscapes(p[1..] + t);
      PlainPrefixEscapes(p[1..], t);
      assert [p[0]] + (p[1..] + DropEscapes(t)) == p + DropEscapes(t);
    }
  }

  /** A first character other than `%` is kept. */
  lemma DropKeysPlainHead(s: string)
    requires s != [] && s[0] != '%'
    ensures DropKeys(s) == [s[0]] + DropKeys(s[1..])
  {
    assert KeyRefLength(s).None?;
  }

  /** A `%`-free prefix passes through the removal of references unchanged. */
  lemma {:induction false} PlainPrefixKeys(p: string, t: string)
    requires '%' !in p
    ensures DropKeys(p + t) == p + DropKeys(t)
  {
    if p == [] {
      assert p + t == t;
    } else {
      var s := p + t;
      assert s[0] == p[0] && s[0] != '%';
      DropKeysPlainHead(s);
      assert s[1..] == p[1..] + t;
      PlainPrefixKeys(p[1..], t);
      assert DropKeys(s) == [p[0]] + (p[1..] + DropKeys(t));
      assert [p[0]] + (p[1..] + DropKeys(t)) == p + DropKeys(t);
    }
  }

  /** A value without `%` passes the check. */
  lemma PlainAccepted(v: string)
    requires '%' !in v
    ensures InterpolationOk(v)
  {
    PlainPrefixEscapes(v, "");
    PlainPrefixKeys(v, "");
    assert v + "" == v;
  }

  /** Values without `%` all pass the check. */
  lemma PlainValuesAccepted(opts: Options)
    requires forall i :: 0 <= i < |opts| ==> '%' !in opts[i].1
    ensures Accepted(opts)
  {
    forall i | 0 <= i < |opts| ensures InterpolationOk(opts[i].1) {
      PlainAccepted(opts[i].1);
    }
  }

  /** A `%` that is neither doubled nor the start of a reference, such as the one in a
      percentage or in an IPv6 zone index, makes `set` raise `ValueError`. */
  lemma LonePercentRefused(p: string, t: string)
    requires '%' !in p
    requires t == [] || (t[0] != '%' && t[0] != '(')
    ensures !InterpolationOk(p + "%" + t)
  {
    var u := DropEscapes(t);
    assert DropEscapes("%" + t) == "%" + u by {
      assert ("%" + t)[1..] == t;
    }
    assert p + "%" + t == p + ("%" + t);
    PlainPrefixEscapes(p, "%" + t);
    assert u == [] || u[0] == t[0];
    assert KeyRefLength("%" + u).None?;
    assert DropKeys("%" + u) == "%" + DropKeys(u) by {
      assert ("%" + u)[1..] == u;
    }
    PlainPrefixKeys(p, "%" + u);
    assert DropKeys(DropEscapes(p + "%" + t))[|p|] == '%';
  }

  /** A complete `%(name)s` reference passes the check. */
  lemma KeyRefAccepted(name: string)
    requires name != [] && ')' !in name && '%' !in name
    ensures InterpolationOk("%(" + name + ")s")
  {
    var v := "%(" + name + ")s";
    assert DropEscapes(v) == v by {
      assert v[1..] == "(" + name + ")s";
      PlainPrefixEscapes(v[1..], "");
      assert v[1..] + "" == v[1..];
    }
    KeyRefSpan(name);
    assert v[|name| + 4..] == [];
  }

  /** A key reference spans the whole of `%(name)s`. */
  lemma KeyRefSpan(name: string)
    requires name != [] && ')' !in name
    ensures KeyRefLength("%(" + name + ")s") == Some(|name| + 4)
  {
    var v := "%(" + name + ")s";
    assert v[2..] == name + ")s";
    assert (name + ")s")[|name|] == ')';
    assert FirstIndexOf(v[2..], ')') == Some(|name|);
  }

  /** A percentage and an IPv6 address with a zone index are refused. */
  lemma PercentExamplesRefused()
    ensures !InterpolationOk("100%")
    ensures !InterpolationOk("fe80::1%eth0")
  {
    LonePercentRefused("100", "");
    assert "100" + "%" + "" == "100%";
    LonePercentRefused("fe80::1", "eth0");
    assert "fe80::1" + "%" + "eth0" == "fe80::1%eth0";
  }

  /** The escaped percentage is accepted. */
  lemma EscapedPercentAccepted()
    ensures InterpolationOk("100%%")
  {
    PlainPrefixEscapes("100", "%%");
    assert "100" + "%%" == "100%%";
    assert DropEscapes("%%") == "";
    PlainAccepted("100");
  }

  /** `conf.get(section, key)`, with `None` for a missing section or key. */
  function Get(c: Config, section: string, key: string): Option<string> {
    if HasSection(c, section) then Find(Items(c, section), key) else None
  }

  /** `set` followed by `get`: the key just set reads back, every other entry is as before. */
  lemma GetSet(c: Config, section: string, key: string, value: string, s: string, k: string)
    requires HasSection(c, section)
    ensures Get(Set(c, section, key, value), s, k)
         == if s == section && k == key then Some(value) else Get(c, s, k)
  {
    SetContents(c, section, key, value, s);
    SetOptionFind(Items(c, section), key, value, k);
    SameNames(c, Set(c, section, key, value), s);
  }

  /** `for k, v in pairs: conf.set(section, k, v)` on one section's options. */
  function SetOptions(opts: Options, pairs: Options): Options {
    if pairs == [] then opts
    else
      var last := pairs[|pairs| - 1];
      SetOption(SetOptions(opts, pairs[..|pairs| - 1]), last.0, last.1)
  }

  /** Setting pairs with distinct keys, none of them present yet, appends them in order. */
  lemma {:induction false} SetOptionsFresh(opts: Options, pairs: Options)
    requires KeysDistinct(pairs)
    requires forall i :: 0 <= i < |pairs| ==> pairs[i].0 !in Keys(opts)
    ensures SetOptions(opts, pairs) == opts + pairs
  {
    if pairs != [] {
      var n := |pairs| - 1;
      var init, last := pairs[..n], pairs[n];
      assert forall i :: 0 <= i < n ==> init[i] == pairs[i];
      SetOptionsFresh(opts, init);
      var ks := Keys(opts + init);
      assert forall i :: 0 <= i < |ks| ==> ks[i] != last.0 by {
        forall i | 0 <= i < |ks| ensures ks[i] != last.0 {
          if i >= |opts| { assert ks[i] == init[i - |opts|].0 == pairs[i - |opts|].0; }
        }
      }
      assert last.0 !in ks;
      SetOptionNew(opts + init, last.0, last.1);
      assert opts + init + [last] == opts + pairs;
    }
  }
}
