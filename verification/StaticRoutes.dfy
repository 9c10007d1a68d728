/** The StaticRoute resource as values, and what the operator computes over its status list. */
module StaticRoutes {
  import opened Ipv4
  import opened Optional

  type Host = string

  /** Textual addresses. Distinct texts stay distinct; "0.0.0.0" is Dotted(ZERO_IP). */
  datatype IpText = EmptyText | Dotted(ip: Ip) | NilText | OtherText(text: string)

  /** net.ParseIP. */
  function ParseIP(t: IpText): Option<Ip> {
    if t.Dotted? then Some(t.ip) else None
  }

  /** net.IP.String, where a nil address has a text of its own. */
  function IpString(gateway: Option<Ip>): IpText {
    match gateway
    case None => NilText
    case Some(ip) => Dotted(ip)
  }

  /** The subnet as written; the host bits of `addr` are part of the text. */
  datatype SubnetText = Cidr(addr: Ip, len: nat) | Malformed(text: string)

  /** The network net.ParseCIDR returns, if it accepts the text. */
  function ParseCIDR(t: SubnetText): Option<IPNet> {
    if t.Cidr? && t.len <= 32 then Some(Network(t.addr, t.len)) else None
  }

  datatype LabelOperator = OpIn | OpNotIn | OpExists | OpDoesNotExist | OpOther(text: string)

  datatype Requirement = Requirement(key: string, operator: LabelOperator, values: seq<string>)

  datatype Spec = Spec(subnet: SubnetText, gateway: IpText, table: Option<int>, selectors: seq<Requirement>)

  datatype Entry = Entry(host: Host, state: Spec, error: string)

  const FINALIZER := "finalizer.static-route.ibm.com"

  /** A StaticRoute with the metadata the protocol relies on. */
  datatype Resource = Resource(version: nat, spec: Spec, deleting: bool, finalizers: seq<string>, status: seq<Entry>)

  function ErrorText(err: Option<string>): string {
    match err
    case None => ""
    case Some(text) => text
  }

  // ------------------------------------------------------------ status lists

  ghost predicate Listed(status: seq<Entry>, host: Host) {
    exists e :: e in status && e.host == host
  }

  /** At most one entry per host. */
  ghost predicate Distinct(status: seq<Entry>) {
    forall i, j :: 0 <= i < j < |status| ==> status[i].host != status[j].host
  }

  /** The entries of all other hosts, in their order. */
  function Without(status: seq<Entry>, host: Host): seq<Entry> {
    if status == [] then []
    else
      var init, last := status[..|status| - 1], status[|status| - 1];
      if last.host == host then Without(init, host) else Without(init, host) + [last]
  }

  /** The entry the operator writes for a host: the spec with the gateway actually used. */
  function NewEntry(host: Host, spec: Spec, gateway: Option<Ip>, err: Option<string>): Entry {
    Entry(host, spec.(gateway := IpString(gateway)), ErrorText(err))
  }

  /** The status after the remove-then-add rewrite of a host's entry. */
  function Rewritten(status: seq<Entry>, host: Host, spec: Spec, gateway: Option<Ip>, err: Option<string>): seq<Entry> {
    Without(status, host) + [NewEntry(host, spec, gateway, err)]
  }

  /** An entry records the same route request as the spec with the given gateway. */
  predicate SameRequest(state: Spec, spec: Spec, gateway: IpText) {
    state.subnet == spec.subnet && state.gateway == gateway &&
    state.table == spec.table && state.selectors == spec.selectors
  }

  ghost predicate Changed(status: seq<Entry>, host: Host, spec: Spec, gateway: IpText) {
    exists e :: e in status && e.host == host && !SameRequest(e.state, spec, gateway)
  }

  predicate Reports(e: Entry, host: Host, spec: Spec, gateway: Option<Ip>, err: Option<string>) {
    e.host == host && e.state.subnet == spec.subnet &&
    e.state.gateway == IpString(gateway) && e.error == ErrorText(err)
  }

  ghost predicate StatusMatch(status: seq<Entry>, host: Host, spec: Spec, gateway: Option<Ip>, err: Option<string>) {
    exists e :: e in status && Reports(e, host, spec, gateway, err)
  }

  // ------------------------------------------------------------ laws

  lemma WithoutAppend(s: seq<Entry>, e: Entry, host: Host)
    ensures Without(s + [e], host) == if e.host == host then Without(s, host) else Without(s, host) + [e]
  {
    assert (s + [e])[..|s|] == s;
  }

  lemma {:induction false} WithoutMember(s: seq<Entry>, host: Host, e: Entry)
    ensures e in Without(s, host) <==> e in s && e.host != host
  {
    if s != [] {
      var init, last := s[..|s| - 1], s[|s| - 1];
      assert s == init + [last];
      WithoutMember(init, host, e);
    }
  }

  lemma WithoutUnlists(s: seq<Entry>, host: Host)
    ensures !Listed(Without(s, host), host)
  {
    forall e | e in Without(s, host) ensures e.host != host {
      WithoutMember(s, host, e);
    }
  }

  lemma ListedAppend(s: seq<Entry>, e: Entry, host: Host)
    ensures Listed(s + [e], host) <==> Listed(s, host) || e.host == host
  {
    assert forall x :: x in s + [e] <==> x in s || x == e;
    assert e in s + [e];
  }

  /** Both about one element more of a list. */
  lemma RemovalStep(s: seq<Entry>, i: nat, host: Host)
    requires i < |s|
    ensures Without(s[..i + 1], host) ==
            if s[i].host == host then Without(s[..i], host) else Without(s[..i], host) + [s[i]]
    ensures Listed(s[..i + 1], host) <==> Listed(s[..i], host) || s[i].host == host
  {
    assert s[..i + 1] == s[..i] + [s[i]];
    WithoutAppend(s[..i], s[i], host);
    ListedAppend(s[..i], s[i], host);
  }

  lemma {:induction false} WithoutUnlisted(s: seq<Entry>, host: Host)
    requires !Listed(s, host)
    ensures Without(s, host) == s
  {
    if s != [] {
      var init, last := s[..|s| - 1], s[|s| - 1];
      assert s == init + [last];
      assert last in s;
      WithoutUnlisted(init, host);
    }
  }

  /** Removing a host twice is removing it once. */
  lemma WithoutTwice(s: seq<Entry>, host: Host)
    ensures Without(Without(s, host), host) == Without(s, host)
  {
    WithoutUnlists(s, host);
    WithoutUnlisted(Without(s, host), host);
  }

  lemma {:induction false} WithoutDistinct(s: seq<Entry>, host: Host)
    requires Distinct(s)
    ensures Distinct(Without(s, host))
  {
    if s != [] {
      var init, last := s[..|s| - 1], s[|s| - 1];
      DistinctInit(s);
      WithoutDistinct(init, host);
      var w := Without(init, host);
      forall i | 0 <= i < |w| ensures w[i].host != last.host {
        WithoutMember(init, host, w[i]);
      }
    }
  }

  /** The rewrite keeps hosts distinct, lists the host, and leaves everyone else's entries
      unchanged and in the same order. */
  lemma RewrittenLaws(s: seq<Entry>, host: Host, spec: Spec, gateway: Option<Ip>, err: Option<string>)
    ensures Without(Rewritten(s, host, spec, gateway, err), host) == Without(s, host)
    ensures Listed(Rewritten(s, host, spec, gateway, err), host)
    ensures Distinct(s) ==> Distinct(Rewritten(s, host, spec, gateway, err))
  {
    var e := NewEntry(host, spec, gateway, err);
    var w := Without(s, host);
    WithoutAppend(w, e, host);
    WithoutTwice(s, host);
    ListedAppend(w, e, host);
    if Distinct(s) {
      WithoutDistinct(s, host);
      WithoutUnlists(s, host);
      forall i | 0 <= i < |w| ensures w[i].host != host {
        assert w[i] in w;
      }
    }
  }

  /** After a rewrite the host's only entry is the new one. */
  lemma RewrittenEntry(s: seq<Entry>, host: Host, spec: Spec, gateway: Option<Ip>, err: Option<string>, e: Entry)
    requires e in Rewritten(s, host, spec, gateway, err) && e.host == host
    ensures e == NewEntry(host, spec, gateway, err)
  {
    WithoutMember(s, host, e);
  }

  lemma DistinctInit(s: seq<Entry>)
    requires s != [] && Distinct(s)
    ensures Distinct(s[..|s| - 1]) && !Listed(s[..|s| - 1], s[|s| - 1].host)
  {
    var init := s[..|s| - 1];
    forall e | e in init ensures e.host != s[|s| - 1].host {
      var i :| 0 <= i < |init| && init[i] == e;
      assert s[i].host != s[|s| - 1].host;
    }
  }

  /** On distinct hosts, a listed host has one entry, so removing it shortens the list by one. */
  lemma {:induction false} WithoutShrinks(s: seq<Entry>, host: Host)
    requires Distinct(s)
    ensures |Without(s, host)| == |s| - if Listed(s, host) then 1 else 0
  {
    if s != [] {
      var init, last := s[..|s| - 1], s[|s| - 1];
      DistinctInit(s);
      WithoutShrinks(init, host);
      ListedAppend(init, last, host);
      assert s == init + [last];
    }
  }

  /** Two status lists that agree once `host` is removed agree about every other host. */
  lemma OthersKept(s: seq<Entry>, t: seq<Entry>, host: Host, other: Host)
    requires Without(s, host) == Without(t, host) && other != host
    ensures Listed(s, other) <==> Listed(t, other)
    ensures forall e: Entry :: e.host == other ==> (e in s <==> e in t)
  {
    forall e: Entry | e.host == other ensures e in s <==> e in t {
      WithoutMember(s, host, e);
      WithoutMember(t, host, e);
    }
    if Listed(s, other) {
      var e :| e in s && e.host == other;
      assert e in t;
    }
    if Listed(t, other) {
      var e :| e in t && e.host == other;
      assert e in s;
    }
  }

  lemma UniqueEntry(s: seq<Entry>, d: Entry, e: Entry)
    requires Distinct(s) && d in s && e in s && d.host == e.host
    ensures d == e
  {
    var i :| 0 <= i < |s| && s[i] == d;
    var j :| 0 <= j < |s| && s[j] == e;
    if i < j || j < i { assert s[i].host == s[j].host; }
  }
}
