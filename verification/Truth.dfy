/** The status tells the truth: an entry without an error, with a real gateway and a readable
    subnet, says exactly what the node's manager holds. */
module Truth {
  import opened Ipv4
  import opened Optional
  import opened StaticRoutes
  import opened RouteManager
  import opened Reconcile
  import opened Cluster
  import opened FineSteps
  import opened Neighbours
  import opened Rounds

  // ------------------------------------------------------------ assumptions

  /** How a node reaches an address: not at all, directly, or through a next hop. */
  datatype Reach = Unreachable(text: string) | Direct | Via(ip: Ip)

  /** What GetGw answers on each node, fixed over the run. */
  type Network = (Host, Ip) -> Reach

  /** If the way to the fallback address leads over a real gateway, that gateway is not itself
      behind a router. */
  predicate FallbackSound(s: Setup, net: Network, h: Host) {
    var fallback := net(h, s.options(h).fallback);
    fallback.Via? && fallback.ip != ZERO_IP ==> !net(h, fallback.ip).Via?
  }

  predicate Answers(r: Reach, c: Choice) {
    match r
    case Unreachable(text) => c.fail == Some(text)
    case Direct => c.fail == None && c.hop == None
    case Via(ip) => c.fail == None && c.hop == Some(ip)
  }

  /** The round's status writes are accepted. */
  predicate StatusWritten(ch: Choices) {
    ch(REPORT).fail.None? && ch(DEL_STATUS).fail.None?
  }

  /** What the rounds can rely on: stages whose calls never fail, and whether reads are up to date. */
  datatype Trust = Trust(sure: set<nat>, upToDate: bool)

  ghost predicate Honoured(trust: Trust, ch: Choices) {
    (forall k :: k in trust.sure ==> ch(k).fail.None?) && (trust.upToDate ==> ch(GET).seen.Latest?)
  }

  /** Neither status write is ever refused, and no read is from an old cache. */
  predicate Enough(trust: Trust) {
    REPORT in trust.sure && DEL_STATUS in trust.sure && trust.upToDate
  }

  /** GetGw answers as the network is, errors have a text, and what can be relied on holds. */
  ghost predicate Faithful(s: Setup, net: Network, trust: Trust, w: World, h: Host, p: Proc, ch: Choices)
    decreases Rank(p)
  {
    Honoured(trust, ch) &&
    (!p.Done? ==>
      FaithfulCall(s, net, h, p, ch(Rank(p))) &&
      var (w', a) := Answered(s, w, h, p, ch);
      Faithful(s, net, trust, w', h, Advance(s.options(h), p, a), ch))
  }

  predicate FaithfulCall(s: Setup, net: Network, h: Host, p: Proc, c: Choice) {
    (c.fail.Some? ==> c.fail.value != "")
    && (p.AwaitGw? ==> Answers(net(h, GwQuery(s.options(h), p.w.spec)), c))
  }

  // ------------------------------------------------------------ the invariant

  predicate Real(t: IpText) {
    t.Dotted? && t.ip != ZERO_IP
  }

  /** The entry claims that a route is in place. */
  predicate Claims(e: Entry) {
    e.error == "" && Real(e.state.gateway) && ParseCIDR(e.state.subnet).Some?
  }

  function ClaimedRoute(o: Options, e: Entry): Route
    requires Claims(e)
  {
    Route(ParseCIDR(e.state.subnet).value, e.state.gateway.ip, TableOf(o, e.state))
  }

  /** Claims are true; an unreadable subnet, or an error with a gateway that is not behind a
      router, means that nothing is held. Entries with a placeholder gateway say nothing. */
  predicate Classified(o: Options, net: Network, e: Entry, held: Option<Route>) {
    (Claims(e) ==> held == Some(ClaimedRoute(o, e)))
    && (Real(e.state.gateway) && !Claims(e) && (e.error == "" || !net(o.host, e.state.gateway.ip).Via?) ==>
          held.None?)
  }

  ghost predicate AllClassified(s: Setup, net: Network, status: seq<Entry>, h: Host, held: Option<Route>) {
    forall e :: e in status && e.host == h ==> Classified(s.options(h), net, e, held)
  }

  ghost predicate NoClaim(status: seq<Entry>, h: Host) {
    forall e :: e in status && e.host == h ==> !Claims(e)
  }

  ghost predicate EntriesTrue(s: Setup, net: Network, w: World, h: Host) {
    w.obj.Some? ==> AllClassified(s, net, w.obj.value.status, h, HeldRoute(s, w, h))
  }

  /** A node's own part of the world is in order: what it holds is shielded and truly reported. */
  ghost predicate OwnPart(s: Setup, net: Network, w: World, h: Host) {
    HistoryOk(w) && EntriesTrue(s, net, w, h) && (Holds(s, w, h) ==> Shielded(w, h))
  }

  /** Ready to add a route: a resolved gateway, nothing changed, no deletion. */
  ghost predicate ReadyToAdd(s: Setup, net: Network, w: World, h: Host, gw: Ip, table: int) {
    w.obj.Some? &&
    var r := w.obj.value;
    Sound(net, h, gw) && table == TableOf(s.options(h), r.spec)
    && !Changed(r.status, h, r.spec, Dotted(gw)) && !r.deleting
  }

  predicate Sound(net: Network, h: Host, gw: Ip) {
    gw != ZERO_IP ==> !net(h, gw).Via?
  }

  /** What is known about the own entries between the calls of a round. */
  ghost predicate OwnTruth(s: Setup, net: Network, w: World, h: Host, p: Proc) {
    match p
    case AwaitFinalizer(_, gw, table) => EntriesTrue(s, net, w, h) && ReadyToAdd(s, net, w, h, gw, table)
    case AwaitIsRegistered(_, gw, table) => EntriesTrue(s, net, w, h) && ReadyToAdd(s, net, w, h, gw, table)
    case AwaitRegister(r, gw, route) =>
      EntriesTrue(s, net, w, h) && ReadyToAdd(s, net, w, h, gw, route.table)
      && route.gw == gw && ParseCIDR(r.spec.subnet) == Some(route.dst)
    case AwaitReport(r, _, _) =>
      AllClassified(s, net, r.status, h, HeldRoute(s, w, h)) && (r.deleting ==> NoClaim(r.status, h))
    case AwaitDeregister(r, _) => EntriesTrue(s, net, w, h) && NoClaim(r.status, h)
    case AwaitDelStatus(r, _) => NoClaim(r.status, h)
    case _ => EntriesTrue(s, net, w, h)
  }

  ghost predicate MidTruth(s: Setup, net: Network, w: World, h: Host, p: Proc, ch: Choices) {
    MidRound(s, w, h, p, ch) && (HasCopy(p) ==> IsCurrent(w, p)) && OwnTruth(s, net, w, h, p)
  }

  // ------------------------------------------------------------ the deferred report

  /** The report of an outcome is safe to make. */
  ghost predicate SafeReport(s: Setup, net: Network, w: World, h: Host, gateway: Option<Ip>, err: Option<string>)
    requires w.obj.Some?
  {
    var r := w.obj.value;
    var e := NewEntry(h, r.spec, gateway, err);
    (StatusMatch(r.status, h, r.spec, gateway, err) ==> EntriesTrue(s, net, w, h))
    && (!StatusMatch(r.status, h, r.spec, gateway, err) ==> Classified(s.options(h), net, e, HeldRoute(s, w, h)))
    && (r.deleting ==> !Claims(e))
  }

  lemma FinishTruth(s: Setup, net: Network, w: World, h: Host, r: Resource, gateway: Option<Ip>, res: Result,
                    err: Option<string>)
    requires ValidSetup(s) && w.obj.Some? && Distinct(r.status)
    requires r.status == w.obj.value.status && r.spec == w.obj.value.spec && r.deleting == w.obj.value.deleting
    requires SafeReport(s, net, w, h, gateway, StatusError(res, err))
    ensures OwnTruth(s, net, w, h, Finish(s.options(h), true, r, gateway, res, err))
  {
    var serr := StatusError(res, err);
    var e := NewEntry(h, r.spec, gateway, serr);
    if StatusMatch(r.status, h, r.spec, gateway, serr) {
      var m :| m in r.status && Reports(m, h, r.spec, gateway, serr);
      forall x | x in r.status && x.host == h && r.deleting ensures !Claims(x) {
        UniqueEntry(r.status, m, x);
      }
    } else {
      forall x | x in Rewritten(r.status, h, r.spec, gateway, serr) && x.host == h ensures x == e {
        RewrittenEntry(r.status, h, r.spec, gateway, serr, x);
      }
    }
  }

  /** An entry with a placeholder gateway never claims anything. */
  lemma PlaceholderReport(s: Setup, net: Network, w: World, h: Host, gateway: Option<Ip>, err: Option<string>)
    requires w.obj.Some? && EntriesTrue(s, net, w, h) && (gateway.None? || gateway.value == ZERO_IP)
    ensures SafeReport(s, net, w, h, gateway, err)
  { }

  lemma NotRoutableReport(s: Setup, net: Network, w: World, h: Host, gw: Ip)
    requires ValidSetup(s) && w.obj.Some? && EntriesTrue(s, net, w, h) && net(h, gw).Via?
    ensures SafeReport(s, net, w, h, Some(gw), Some(NOT_ROUTABLE_TEXT))
  { }

  lemma PlaceholderFinish(s: Setup, net: Network, w: World, h: Host, report: bool, gateway: Option<Ip>,
                          res: Result, err: Option<string>)
    requires ValidSetup(s) && w.obj.Some? && EntriesTrue(s, net, w, h) && Distinct(w.obj.value.status)
    requires gateway.None? || gateway.value == ZERO_IP
    ensures OwnTruth(s, net, w, h, Finish(s.options(h), report, w.obj.value, gateway, res, err))
  {
    PlaceholderReport(s, net, w, h, gateway, StatusError(res, err));
    FinishTruth(s, net, w, h, w.obj.value, gateway, res, err);
  }

  // ------------------------------------------------------------ stage by stage

  lemma SelectTruth(s: Setup, net: Network, w: World, h: Host, noLonger: bool)
    requires ValidSetup(s) && w.obj.Some? && EntriesTrue(s, net, w, h) && Distinct(w.obj.value.status)
    ensures OwnTruth(s, net, w, h, AfterSelect(s.options(h), w.obj.value, noLonger))
  {
    PlaceholderFinish(s, net, w, h, !noLonger, Some(ZERO_IP), OverlapsProtected, None);
    PlaceholderFinish(s, net, w, h, !noLonger, None, InvalidGatewayError, None);
  }

  lemma FetchedTruth(s: Setup, net: Network, w: World, h: Host)
    requires ValidSetup(s) && w.obj.Some? && EntriesTrue(s, net, w, h) && Distinct(w.obj.value.status)
    ensures OwnTruth(s, net, w, h, Fetched(s.options(h), w.obj.value))
  {
    SelectTruth(s, net, w, h, false);
    PlaceholderFinish(s, net, w, h, true, Some(ZERO_IP), WrongSelectorErr, None);
  }

  lemma BranchTruth(s: Setup, net: Network, w: World, h: Host, gw: Ip, noLonger: bool)
    requires ValidSetup(s) && w.obj.Some? && EntriesTrue(s, net, w, h)
    requires Sound(net, h, gw)
    ensures OwnTruth(s, net, w, h, Resolved(s.options(h), w.obj.value, gw, noLonger))
  {
    WithoutUnlists(w.obj.value.status, h);
  }

  lemma GwTruth(s: Setup, net: Network, w: World, h: Host, noLonger: bool, c: Choice)
    requires ValidSetup(s) && FallbackSound(s, net, h)
    requires w.obj.Some? && EntriesTrue(s, net, w, h) && Distinct(w.obj.value.status)
    requires FaithfulCall(s, net, h, AwaitGw(w.obj.value, noLonger), c)
    ensures var o := s.options(h); var p := AwaitGw(w.obj.value, noLonger);
            OwnTruth(s, net, w, h, Advance(o, p, Exec(w, h, Pending(o, p), c).1))
  {
    var r, o := w.obj.value, s.options(h);
    var reach := net(h, GwQuery(o, r.spec));
    if reach.Unreachable? {
      PlaceholderFinish(s, net, w, h, !noLonger, None, RouteGetError, Some(reach.text));
    } else if r.spec.gateway.Dotted? {
      if reach.Via? {
        NotRoutableReport(s, net, w, h, r.spec.gateway.ip);
        FinishTruth(s, net, w, h, r, Some(r.spec.gateway.ip), GatewayNotDirectlyRoutableError, None);
      } else {
        BranchTruth(s, net, w, h, r.spec.gateway.ip, noLonger);
      }
    } else if reach.Via? {
      BranchTruth(s, net, w, h, reach.ip, noLonger);
    } else {
      PlaceholderFinish(s, net, w, h, !noLonger, None, NoResult, None);
    }
  }

  /** An unchanged, held route is already reported as it should be. */
  lemma HeldIsReported(s: Setup, net: Network, w: World, h: Host, gw: Ip, table: int)
    requires ValidSetup(s) && EntriesTrue(s, net, w, h) && ReadyToAdd(s, net, w, h, gw, table)
    requires Holds(s, w, h) && Shielded(w, h) && gw != ZERO_IP
    ensures StatusMatch(w.obj.value.status, h, w.obj.value.spec, Some(gw), None)
  {
    var r := w.obj.value;
    var m :| m in r.status && m.host == h;
    assert Classified(s.options(h), net, m, HeldRoute(s, w, h));
    assert SameRequest(m.state, r.spec, Dotted(gw));
    assert Reports(m, h, r.spec, Some(gw), None);
  }

  /** A route that is not held is not reported as in place. */
  lemma UnheldIsNotReported(s: Setup, net: Network, w: World, h: Host, gw: Ip)
    requires ValidSetup(s) && w.obj.Some? && EntriesTrue(s, net, w, h) && !Holds(s, w, h) && gw != ZERO_IP
    requires ParseCIDR(w.obj.value.spec.subnet).Some?
    ensures !StatusMatch(w.obj.value.status, h, w.obj.value.spec, Some(gw), None)
  {
    var r := w.obj.value;
    forall m | m in r.status ensures !Reports(m, h, r.spec, Some(gw), None) {
      if m.host == h {
        assert Classified(s.options(h), net, m, HeldRoute(s, w, h));
      }
    }
  }

  lemma IsRegisteredTruth(s: Setup, net: Network, w: World, h: Host, gw: Ip, table: int, ch: Choices)
    requires ValidSetup(s) && w.obj.Some? && MidTruth(s, net, w, h, AwaitIsRegistered(w.obj.value, gw, table), ch)
    ensures var o := s.options(h);
            OwnTruth(s, net, w, h, Advance(o, AwaitIsRegistered(w.obj.value, gw, table), ABool(Holds(s, w, h))))
  {
    var r := w.obj.value;
    if gw == ZERO_IP {
      PlaceholderFinish(s, net, w, h, true, Some(gw), Finished, None);
      PlaceholderFinish(s, net, w, h, true, Some(gw), ParseSubnetError, None);
    } else if Holds(s, w, h) {
      HeldIsReported(s, net, w, h, gw, table);
      FinishTruth(s, net, w, h, r, Some(gw), Finished, None);
    } else if ParseCIDR(r.spec.subnet).None? {
      FinishTruth(s, net, w, h, r, Some(gw), ParseSubnetError, None);
    }
  }

  lemma RegisteredReport(s: Setup, net: Network, w: World, h: Host, gw: Ip, route: Route, w': World)
    requires ValidSetup(s) && w.obj.Some? && EntriesTrue(s, net, w, h) && !Holds(s, w, h)
    requires ReadyToAdd(s, net, w, h, gw, route.table) && route.gw == gw
    requires ParseCIDR(w.obj.value.spec.subnet) == Some(route.dst)
    requires w'.obj == w.obj && HeldRoute(s, w', h) == Some(route)
    ensures SafeReport(s, net, w', h, Some(gw), None)
  {
    if gw == ZERO_IP {
      PlaceholderStays(s, net, w, h, gw, w');
    } else {
      UnheldIsNotReported(s, net, w, h, gw);
    }
  }

  /** A matching entry with a placeholder gateway is the only one of its host. */
  lemma PlaceholderStays(s: Setup, net: Network, w: World, h: Host, gw: Ip, w': World)
    requires w.obj.Some? && w'.obj == w.obj && gw == ZERO_IP
    requires !w.obj.value.deleting && !Changed(w.obj.value.status, h, w.obj.value.spec, Dotted(gw))
    ensures SafeReport(s, net, w', h, Some(gw), None)
  {
    forall e | e in w.obj.value.status && e.host == h ensures !Real(e.state.gateway) {
      assert SameRequest(e.state, w.obj.value.spec, Dotted(gw));
    }
  }

  lemma RefusedReport(s: Setup, net: Network, w: World, h: Host, gw: Ip, text: string)
    requires ValidSetup(s) && w.obj.Some? && EntriesTrue(s, net, w, h) && !Holds(s, w, h) && text != ""
    ensures SafeReport(s, net, w, h, Some(gw), Some(text))
  { }

  lemma RegisterTruth(s: Setup, net: Network, w: World, h: Host, p: Proc, ch: Choices)
    requires ValidSetup(s) && MidTruth(s, net, w, h, p, ch) && p.AwaitRegister?
    requires FaithfulCall(s, net, h, p, ch(Rank(p)))
    ensures var (w', a) := Answered(s, w, h, p, ch); OwnTruth(s, net, w', h, Advance(s.options(h), p, a))
  {
    var (w', a) := Answered(s, w, h, p, ch);
    var r, o := w.obj.value, s.options(h);
    assert p.w == r && w'.obj == w.obj;
    if a.reply.Ok? {
      RegisteredReport(s, net, w, h, p.gw, p.route, w');
      FinishTruth(s, net, w', h, r, Some(p.gw), Finished, None);
      assert Advance(o, p, a) == Finish(o, true, r, Some(p.gw), Finished, None);
    } else {
      RegisterRefusedTruth(s, net, w, h, p, ch);
    }
  }

  lemma RegisterRefusedTruth(s: Setup, net: Network, w: World, h: Host, p: Proc, ch: Choices)
    requires ValidSetup(s) && MidTruth(s, net, w, h, p, ch) && p.AwaitRegister?
    requires FaithfulCall(s, net, h, p, ch(Rank(p)))
    requires Answered(s, w, h, p, ch).1.reply.Failed?
    ensures var (w', a) := Answered(s, w, h, p, ch); OwnTruth(s, net, w', h, Advance(s.options(h), p, a))
  {
    var (w', a) := Answered(s, w, h, p, ch);
    var r, o := w.obj.value, s.options(h);
    assert p.w == r && w'.obj == w.obj && !Holds(s, w', h);
    assert EntriesTrue(s, net, w', h);
    RefusedReport(s, net, w', h, p.gw, a.reply.text);
    FinishTruth(s, net, w', h, r, Some(p.gw), RegisterRouteError, Some(a.reply.text));
    assert Advance(o, p, a) == Finish(o, true, r, Some(p.gw), RegisterRouteError, Some(a.reply.text));
  }

  /** A refused finalizer leaves a route that is not held. */
  lemma FinalizerTruth(s: Setup, net: Network, w: World, h: Host, p: Proc, ch: Choices)
    requires ValidSetup(s) && MidTruth(s, net, w, h, p, ch) && p.AwaitFinalizer?
    requires FaithfulCall(s, net, h, p, ch(Rank(p)))
    ensures var (w', a) := Answered(s, w, h, p, ch); OwnTruth(s, net, w', h, Advance(s.options(h), p, a))
  {
    var (w', a) := Answered(s, w, h, p, ch);
    CurrentBase(s, w, h, p);
    if a.AError? {
      assert !Holds(s, w, h) && w' == w;
      RefusedReport(s, net, w, h, p.gw, a.text);
      FinishTruth(s, net, w, h, p.w, Some(p.gw), SetFinalizerError, Some(a.text));
    } else {
      assert HeldRoute(s, w', h) == HeldRoute(s, w, h);
    }
  }

  /** The status writes, and the clearing that finds an empty status. */
  lemma WriteTruth(s: Setup, net: Network, w: World, h: Host, p: Proc, ch: Choices)
    requires ValidSetup(s) && MidTruth(s, net, w, h, p, ch) && StatusWritten(ch)
    requires p.AwaitReport? || p.AwaitDelStatus? || p.AwaitClear?
    ensures var (w', a) := Answered(s, w, h, p, ch); OwnTruth(s, net, w', h, Advance(s.options(h), p, a))
  {
    var (w', a) := Answered(s, w, h, p, ch);
    CurrentBase(s, w, h, p);
    assert p.AwaitClear? || Accepted(w, p.w, ch(Rank(p)));
    assert HeldRoute(s, w', h) == HeldRoute(s, w, h);
  }

  lemma DeregisterTruth(s: Setup, net: Network, w: World, h: Host, p: Proc, ch: Choices)
    requires ValidSetup(s) && MidTruth(s, net, w, h, p, ch) && p.AwaitDeregister?
    ensures var (w', a) := Answered(s, w, h, p, ch); OwnTruth(s, net, w', h, Advance(s.options(h), p, a))
  {
    var (w', a) := Answered(s, w, h, p, ch);
    if a.reply.Failed? {
      assert HeldRoute(s, w', h) == HeldRoute(s, w, h);
    }
  }

  lemma GetTruth(s: Setup, net: Network, w: World, h: Host, ch: Choices)
    requires ValidSetup(s) && MidTruth(s, net, w, h, AwaitGet, ch) && ch(GET).seen.Latest?
    ensures var (w', a) := Answered(s, w, h, AwaitGet, ch); OwnTruth(s, net, w', h, Advance(s.options(h), AwaitGet, a))
  {
    var (w', a) := Answered(s, w, h, AwaitGet, ch);
    if a.AObject? {
      assert a.resource == w.obj.value;
      FetchedTruth(s, net, w, h);
    }
  }

  lemma ListTruth(s: Setup, net: Network, w: World, h: Host, a: Answer)
    requires ValidSetup(s) && w.obj.Some? && EntriesTrue(s, net, w, h) && Distinct(w.obj.value.status)
    requires a.ANodes? || a.AError?
    ensures OwnTruth(s, net, w, h, Advance(s.options(h), AwaitList(w.obj.value), a))
  {
    SelectTruth(s, net, w, h, true);
    SelectTruth(s, net, w, h, false);
    if a.AError? { PlaceholderFinish(s, net, w, h, true, Some(ZERO_IP), NodeGetError, Some(a.text)); }
  }

  lemma ReadTruth(s: Setup, net: Network, w: World, h: Host, p: Proc, ch: Choices)
    requires ValidSetup(s) && FallbackSound(s, net, h) && MidTruth(s, net, w, h, p, ch)
    requires FaithfulCall(s, net, h, p, ch(Rank(p)))
    requires p.AwaitList? || p.AwaitGw? || p.AwaitIsRegistered?
    ensures var (w', a) := Answered(s, w, h, p, ch); OwnTruth(s, net, w', h, Advance(s.options(h), p, a))
  {
    var (w', a) := Answered(s, w, h, p, ch);
    assert p.w == w.obj.value == w.hist[p.w.version] && w' == w;
    if p.AwaitList? { ListTruth(s, net, w, h, a); }
    else if p.AwaitGw? { GwTruth(s, net, w, h, p.noLonger, ch(Rank(p))); }
    else { IsRegisteredTruth(s, net, w, h, p.gw, p.table, ch); }
  }

  lemma CopyStaysCurrent(s: Setup, w: World, h: Host, p: Proc, ch: Choices)
    requires ValidSetup(s) && Steady(s, w, h, p) && !p.Done? && (HasCopy(p) ==> IsCurrent(w, p)) && ch(GET).seen.Latest?
    ensures var (w', a) := Answered(s, w, h, p, ch); var q := Advance(s.options(h), p, a);
            HasCopy(q) ==> IsCurrent(w', q)
  {
    if p.AwaitGet? && ch(GET).fail.Some? {
      ReadFailed(s.options(h), p, Answered(s, w, h, p, ch).1);
    } else {
      CurrentStep(s, w, h, p, ch);
    }
  }

  lemma TruthStep(s: Setup, net: Network, w: World, h: Host, p: Proc, ch: Choices)
    requires ValidSetup(s) && FallbackSound(s, net, h) && MidTruth(s, net, w, h, p, ch) && !p.Done?
    requires StatusWritten(ch) && ch(GET).seen.Latest? && FaithfulCall(s, net, h, p, ch(Rank(p)))
    ensures var (w', a) := Answered(s, w, h, p, ch); MidTruth(s, net, w', h, Advance(s.options(h), p, a), ch)
  {
    RoundStepKeeps(s, w, h, p, ch);
    CopyStaysCurrent(s, w, h, p, ch);
    if p.AwaitGet? { GetTruth(s, net, w, h, ch); }
    else if p.AwaitRegister? { RegisterTruth(s, net, w, h, p, ch); }
    else if p.AwaitDeregister? { DeregisterTruth(s, net, w, h, p, ch); }
    else if p.AwaitFinalizer? { FinalizerTruth(s, net, w, h, p, ch); }
    else if p.AwaitList? || p.AwaitGw? || p.AwaitIsRegistered? { ReadTruth(s, net, w, h, p, ch); }
    else { WriteTruth(s, net, w, h, p, ch); }
  }

  lemma {:induction false} RoundKeepsTruth(s: Setup, net: Network, trust: Trust, w: World, h: Host, p: Proc,
                                           ch: Choices)
    requires ValidSetup(s) && FallbackSound(s, net, h) && MidTruth(s, net, w, h, p, ch)
    requires Faithful(s, net, trust, w, h, p, ch) && Enough(trust)
    ensures OwnPart(s, net, RunToEnd(s, w, h, p, ch).world, h)
    decreases Rank(p)
  {
    if !p.Done? {
      var (w', a) := Answered(s, w, h, p, ch);
      TruthStep(s, net, w, h, p, ch);
      RoundKeepsTruth(s, net, trust, w', h, Advance(s.options(h), p, a), ch);
    }
  }

  // ------------------------------------------------------------ turns of others

  /** A turn that keeps what a node depends on keeps its part of the world in order. */
  lemma KeptOwnPart(s: Setup, net: Network, w: World, h: Host, w': World)
    requires OwnPart(s, net, w, h) && Kept(s, w, h, w') && HistoryOk(w')
    ensures OwnPart(s, net, w', h)
  {
    if Holds(s, w', h) {
      KeptListed(s, w, h, w');
    }
  }

  lemma OutsideKeepsTruth(s: Setup, net: Network, w: World, e: Outside, h: Host)
    requires OwnPart(s, net, w, h) && OutsideEnabled(s, w, e) && h in w.live && h in AfterOutside(s, w, e).live
    ensures OwnPart(s, net, AfterOutside(s, w, e), h)
  {
    var w' := AfterOutside(s, w, e);
    OutsideStore(s, w, e);
    if LeavesAlone(e, h) {
      OutsideKeepsOthers(s, w, e, h);
      KeptOwnPart(s, net, w, h, w');
    } else {
      OutsideHolds(s, w, e, h);
      assert HeldRoute(s, w', h) == HeldRoute(s, w, h);
    }
  }

  // ------------------------------------------------------------ whole runs

  /** The rounds of `h` are faithful; those of the other nodes may be answered in any way. */
  ghost predicate FaithfulTurn(s: Setup, net: Network, trust: Trust, w: World, t: Turn, h: Host) {
    t.RoundOf? && t.h == h ==> Faithful(s, net, trust, w, h, AwaitGet, t.ch)
  }

  ghost predicate FaithfulFor(s: Setup, net: Network, trust: Trust, ws: seq<World>, turns: seq<Turn>, h: Host) {
    IsRoundRun(s, ws, turns) && forall i :: 0 <= i < |turns| ==> FaithfulTurn(s, net, trust, ws[i], turns[i], h)
  }

  lemma TurnKeepsTruth(s: Setup, net: Network, trust: Trust, w: World, t: Turn, w': World, h: Host)
    requires ValidSetup(s) && FallbackSound(s, net, h) && TurnsTo(s, w, t, w') && FaithfulTurn(s, net, trust, w, t, h)
    requires Enough(trust)
    requires HistoryOk(w) && (h in w.live ==> OwnPart(s, net, w, h))
    ensures HistoryOk(w') && (h in w'.live ==> OwnPart(s, net, w', h))
  {
    TurnHistory(s, w, t, w');
    if h in w'.live {
      match t
      case RoundOf(g, ch) =>
        RunFrame(s, w, g, AwaitGet, ch);
        if g == h {
          RoundKeepsTruth(s, net, trust, w, h, AwaitGet, ch);
        } else {
          RoundKeepsOthers(s, w, g, ch, h);
          KeptOwnPart(s, net, w, h, w');
        }
      case Meanwhile(e) => OutsideKeepsTruth(s, net, w, e, h);
    }
  }

  /** In every reachable state a live node's own part of the world is in order. */
  lemma {:induction false} RunsKeepOwnPart(s: Setup, net: Network, trust: Trust, ws: seq<World>, turns: seq<Turn>,
                                           h: Host, i: nat)
    requires Enough(trust)
    requires ValidSetup(s) && FallbackSound(s, net, h) && FaithfulFor(s, net, trust, ws, turns, h) && i < |ws|
    ensures HistoryOk(ws[i]) && (h in ws[i].live ==> OwnPart(s, net, ws[i], h))
  {
    if i > 0 {
      RunsKeepOwnPart(s, net, trust, ws, turns, h, i - 1);
      TurnAt(s, ws, turns, i - 1);
      TurnKeepsTruth(s, net, trust, ws[i - 1], turns[i - 1], ws[i], h);
    }
  }

  /** An entry of `h` that claims a route which the manager does not hold. */
  ghost predicate Lies(s: Setup, w: World, h: Host) {
    h in w.live && w.obj.Some? &&
    exists e :: e in w.obj.value.status && e.host == h && Claims(e)
                && HeldRoute(s, w, h) != Some(ClaimedRoute(s.options(h), e))
  }

  /** In every reachable state, an entry of a live node with no error, a real gateway and a
      readable subnet means that the node's manager holds exactly that subnet, gateway and
      table (the node's default table if the entry names none). */
  lemma StatusTellsTheTruth(s: Setup, net: Network, trust: Trust, ws: seq<World>, turns: seq<Turn>, i: nat, e: Entry)
    requires Enough(trust)
    requires ValidSetup(s) && FallbackSound(s, net, e.host) && FaithfulFor(s, net, trust, ws, turns, e.host) && i < |ws|
    requires ws[i].obj.Some? && e in ws[i].obj.value.status && e.host in ws[i].live
    requires e.error == "" && e.state.gateway.Dotted? && e.state.gateway.ip != ZERO_IP
    requires ParseCIDR(e.state.subnet).Some?
    ensures s.name in ManagedOf(ws[i], e.host)
    ensures ManagedOf(ws[i], e.host)[s.name] ==
            Route(ParseCIDR(e.state.subnet).value, e.state.gateway.ip,
                  if e.state.table.Some? then e.state.table.value else s.options(e.host).table)
  {
    RunsKeepOwnPart(s, net, trust, ws, turns, e.host, i);
    assert Classified(s.options(e.host), net, e, HeldRoute(s, ws[i], e.host));
  }
}
