/** The topology registry of `CertsGenerator`: the registered master hostnames and IP
    addresses (each list duplicate-free, in first-seen order) and the internal and
    external advertise addresses. The class in module Generator holds these as fields
    and its methods are specified by the functions here; the lemmas describe what any
    sequence of registry calls leaves behind. */
module Topology {
  import opened Common

  datatype Topology = Topology(
    dnsList: seq<string>,
    ipaddrList: seq<string>,
    internal: Option<string>,
    external: Option<string>)

  /** The registry of a freshly constructed generator. */
  const Empty := Topology([], [], None, None)

  /** What the registry operations maintain. */
  predicate Valid(t: Topology) {
    && NoDup(t.dnsList)
    && NoDup(t.ipaddrList)
    && (t.ipaddrList != [] ==> t.internal.Some?)
  }

  /** `if x not in xs: xs.append(x)`. */
  function AppendNew(xs: seq<string>, x: string): (r: seq<string>)
    ensures x in r
    ensures xs <= r && |r| <= |xs| + 1
    ensures forall v :: v in r <==> v in xs || v == x
    ensures NoDup(xs) ==> NoDup(r)
  {
    if x in xs then xs else xs + [x]
  }

  /** `register_master(ipaddr, hostname)`. */
  function RegisterMaster(t: Topology, ip: string, host: string): (r: Topology)
    ensures ip in r.ipaddrList && host in r.dnsList
    ensures t.ipaddrList <= r.ipaddrList && t.dnsList <= r.dnsList
    ensures t.ipaddrList == [] ==> r.internal == Some(ip)
    ensures t.ipaddrList != [] ==> r.internal == t.internal
    ensures r.external == t.external
    ensures Valid(t) ==> Valid(r)
  {
    var internal := if t.ipaddrList == [] then Some(ip) else t.internal;
    Topology(AppendNew(t.dnsList, host), AppendNew(t.ipaddrList, ip), internal, t.external)
  }

  /** `advertise_internal_ipaddr(ipaddr)`: overwrites unconditionally. */
  function AdvertiseInternal(t: Topology, ip: string): (r: Topology)
    ensures r.internal == Some(ip)
    ensures r.dnsList == t.dnsList && r.ipaddrList == t.ipaddrList && r.external == t.external
    ensures Valid(t) ==> Valid(r)
  {
    t.(internal := Some(ip))
  }

  /** `advertise_external_ipaddr(ipaddr)`: overwrites unconditionally. */
  function AdvertiseExternal(t: Topology, ip: string): (r: Topology)
    ensures r.external == Some(ip)
    ensures r.dnsList == t.dnsList && r.ipaddrList == t.ipaddrList && r.internal == t.internal
    ensures Valid(t) ==> Valid(r)
  {
    t.(external := Some(ip))
  }

  /** One call on the registry. */
  datatype Call = Register(ip: string, host: string) | SetInternal(ip: string) | SetExternal(ip: string)

  function Apply(t: Topology, c: Call): Topology {
    match c
    case Register(ip, host) => RegisterMaster(t, ip, host)
    case SetInternal(ip) => AdvertiseInternal(t, ip)
    case SetExternal(ip) => AdvertiseExternal(t, ip)
  }

  /** The registry after the calls, in order, on a fresh generator; every registry
      reachable this way satisfies the invariant. */
  function Run(calls: seq<Call>): (r: Topology)
    ensures Valid(r)
  {
    if calls == [] then Empty else Apply(Run(calls[..|calls| - 1]), calls[|calls| - 1])
  }

  /** The IP addresses, and the hostnames, passed to `register_master`, in call order. */
  function RegisteredIps(calls: seq<Call>): (r: seq<string>) {
    if calls == [] then []
    else
      var last := calls[|calls| - 1];
      RegisteredIps(calls[..|calls| - 1]) + (if last.Register? then [last.ip] else [])
  }

  function RegisteredHosts(calls: seq<Call>): (r: seq<string>) {
    if calls == [] then []
    else
      var last := calls[|calls| - 1];
      RegisteredHosts(calls[..|calls| - 1]) + (if last.Register? then [last.host] else [])
  }

  /** Reference definition of "duplicates removed, first-seen order": keep `xs[k]`
      exactly when it does not occur before position `k`. */
  function FirstSeenFrom(xs: seq<string>, k: nat): seq<string>
    decreases |xs| - k
  {
    if k >= |xs| then []
    else (if xs[k] in xs[..k] then [] else [xs[k]]) + FirstSeenFrom(xs, k + 1)
  }

  function FirstSeen(xs: seq<string>): seq<string> {
    FirstSeenFrom(xs, 0)
  }

  lemma {:induction false} FirstSeenFromSnoc(xs: seq<string>, x: string, k: nat)
    requires k <= |xs|
    ensures FirstSeenFrom(xs + [x], k) == FirstSeenFrom(xs, k) + (if x in xs then [] else [x])
    decreases |xs| - k
  {
    var ys := xs + [x];
    if k == |xs| {
      assert ys[..k] == xs;
      assert FirstSeenFrom(ys, k + 1) == [];
    } else {
      assert ys[k] == xs[k] && ys[..k] == xs[..k];
      FirstSeenFromSnoc(xs, x, k + 1);
    }
  }

  /** Appending a value to the input appends it to the reference result iff it is new. */
  lemma FirstSeenSnoc(xs: seq<string>, x: string)
    ensures FirstSeen(xs + [x]) == FirstSeen(xs) + (if x in xs then [] else [x])
  {
    FirstSeenFromSnoc(xs, x, 0);
  }

  /** The reference result holds every input value exactly once. */
  lemma {:induction false} FirstSeenMembers(xs: seq<string>)
    ensures forall v :: v in FirstSeen(xs) <==> v in xs
    ensures NoDup(FirstSeen(xs))
  {
    if xs != [] {
      var init, x := xs[..|xs| - 1], xs[|xs| - 1];
      assert xs == init + [x];
      FirstSeenMembers(init);
      FirstSeenSnoc(init, x);
    }
  }

  /** After any calls, both master lists are the registered values with repeats removed,
      in the order they were first registered. */
  lemma {:induction false} RunMasterLists(calls: seq<Call>)
    ensures Run(calls).ipaddrList == FirstSeen(RegisteredIps(calls))
    ensures Run(calls).dnsList == FirstSeen(RegisteredHosts(calls))
  {
    if calls != [] {
      var init, c := calls[..|calls| - 1], calls[|calls| - 1];
      RunMasterLists(init);
      assert calls == init + [c];
      assert Run(calls) == Apply(Run(init), c);
      assert RegisteredIps(calls) == RegisteredIps(init) + (if c.Register? then [c.ip] else []);
      assert RegisteredHosts(calls) == RegisteredHosts(init) + (if c.Register? then [c.host] else []);
      if c.Register? {
        FirstSeenMembers(RegisteredIps(init));
        FirstSeenMembers(RegisteredHosts(init));
        FirstSeenSnoc(RegisteredIps(init), c.ip);
        FirstSeenSnoc(RegisteredHosts(init), c.host);
        assert Run(calls).ipaddrList == AppendNew(Run(init).ipaddrList, c.ip);
        assert Run(calls).dnsList == AppendNew(Run(init).dnsList, c.host);
        assert (c.ip in Run(init).ipaddrList) == (c.ip in RegisteredIps(init));
        assert (c.host in Run(init).dnsList) == (c.host in RegisteredHosts(init));
      } else {
        assert RegisteredIps(calls) == RegisteredIps(init);
        assert RegisteredHosts(calls) == RegisteredHosts(init);
        assert Run(calls).ipaddrList == Run(init).ipaddrList;
        assert Run(calls).dnsList == Run(init).dnsList;
      }
    }
  }

  /** Whatever the calls, the lists are duplicate-free and hold every registered value. */
  lemma RunMastersDistinct(calls: seq<Call>)
    ensures NoDup(Run(calls).ipaddrList) && NoDup(Run(calls).dnsList)
    ensures forall v :: v in Run(calls).ipaddrList <==> v in RegisteredIps(calls)
    ensures forall v :: v in Run(calls).dnsList <==> v in RegisteredHosts(calls)
  {
    RunMasterLists(calls);
    FirstSeenMembers(RegisteredIps(calls));
    FirstSeenMembers(RegisteredHosts(calls));
  }

  /** Call `k` writes the internal advertise address: an explicit
      `advertise_internal_ipaddr`, or the first `register_master`. */
  predicate WritesInternal(calls: seq<Call>, k: nat)
    requires k < |calls|
  {
    calls[k].SetInternal? || (calls[k].Register? && forall j :: 0 <= j < k ==> !calls[j].Register?)
  }

  lemma {:induction false} RunIpsEmpty(calls: seq<Call>)
    ensures Run(calls).ipaddrList == [] <==> forall j :: 0 <= j < |calls| ==> !calls[j].Register?
  {
    if calls != [] {
      var init := calls[..|calls| - 1];
      RunIpsEmpty(init);
      assert forall j :: 0 <= j < |init| ==> init[j] == calls[j];
    }
  }

  /** One call changes the internal address exactly when it writes it. */
  lemma StepInternal(calls: seq<Call>)
    requires calls != []
    ensures Run(calls).internal
         == if WritesInternal(calls, |calls| - 1) then Some(calls[|calls| - 1].ip)
            else Run(calls[..|calls| - 1]).internal
  {
    var n := |calls| - 1;
    var init := calls[..n];
    RunIpsEmpty(init);
    assert forall j :: 0 <= j < n ==> init[j] == calls[j];
  }

  lemma WritesInternalPrefix(calls: seq<Call>, k: nat)
    requires k < |calls| - 1
    ensures WritesInternal(calls, k) == WritesInternal(calls[..|calls| - 1], k)
  {
    var init := calls[..|calls| - 1];
    assert calls[k] == init[k];
    assert forall j :: 0 <= j < k ==> calls[j] == init[j];
  }

  /** With no call writing it, the internal advertise address stays unset. */
  lemma {:induction false} RunInternalUnset(calls: seq<Call>)
    requires forall k :: 0 <= k < |calls| ==> !WritesInternal(calls, k)
    ensures Run(calls).internal == None
  {
    if calls != [] {
      var n := |calls| - 1;
      StepInternal(calls);
      forall k | 0 <= k < n ensures !WritesInternal(calls[..n], k) {
        WritesInternalPrefix(calls, k);
      }
      RunInternalUnset(calls[..n]);
    }
  }

  /** The internal advertise address is the one written by the last call that writes it:
      the setter overwrites whatever came before, and the first registration overwrites
      an earlier setter call. */
  lemma {:induction false} RunInternalLastWrite(calls: seq<Call>, k: nat)
    requires k < |calls| && WritesInternal(calls, k)
    requires forall j :: k < j < |calls| ==> !WritesInternal(calls, j)
    ensures Run(calls).internal == Some(calls[k].ip)
  {
    var n := |calls| - 1;
    StepInternal(calls);
    if k < n {
      var init := calls[..n];
      WritesInternalPrefix(calls, k);
      forall j | k < j < n ensures !WritesInternal(init, j) {
        WritesInternalPrefix(calls, j);
      }
      RunInternalLastWrite(init, k);
    }
  }

  /** Without an explicit override the internal address is the first registered master's IP. */
  lemma FirstMasterIsDefaultInternal(calls: seq<Call>, k: nat)
    requires k < |calls| && calls[k].Register?
    requires forall j :: 0 <= j < k ==> !calls[j].Register?
    requires forall j :: 0 <= j < |calls| ==> !calls[j].SetInternal?
    ensures Run(calls).internal == Some(calls[k].ip)
  {
    forall j | k < j < |calls| ensures !WritesInternal(calls, j) {
      assert calls[k].Register?;
    }
    RunInternalLastWrite(calls, k);
  }

  /** An override made before the first registration does not survive it. */
  lemma EarlyOverrideIsClobbered(override: string, ip: string, host: string)
    ensures Run([SetInternal(override), Register(ip, host)]).internal == Some(ip)
  {
    var calls := [SetInternal(override), Register(ip, host)];
    assert calls[..1] == [SetInternal(override)];
    assert calls[..1][..0] == [];
    assert Run(calls[..1]) == Topology([], [], Some(override), None);
  }
}
