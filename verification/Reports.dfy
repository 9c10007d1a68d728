/** What the status says after a round that reports: one entry of the node, whose error is the one
    the round met, told from the CR, the node's configuration and the answers alone. */
module Reports {
  import opened Ipv4
  import opened Optional
  import opened StaticRoutes
  import opened RouteManager
  import opened Reconcile
  import opened Cluster
  import opened FineSteps
  import opened Settling
  import opened Convergence
  import opened Draining

  /** Exactly one entry of the node, for the subnet of the spec, with this gateway and error. */
  ghost predicate Tells(w: World, h: Host, spec: Spec, gateway: IpText, error: string) {
    w.obj.Some?
    && (exists e :: e in w.obj.value.status && e.host == h)
    && (forall e :: e in w.obj.value.status && e.host == h ==>
          e.state.subnet == spec.subnet && e.state.gateway == gateway && e.error == error)
    && forall d, e :: d in w.obj.value.status && e in w.obj.value.status && d.host == e.host ==> d == e
  }

  // ------------------------------------------------------------ what is to be told

  /** Some address of the subnet lies in a protected block. */
  ghost predicate Overlaps(o: Options, spec: Spec) {
    ParseCIDR(spec.subnet).Some?
    && exists p, a: Ip :: p in o.protecteds && Contains(p, a) && Contains(ParseCIDR(spec.subnet).value, a)
  }

  /** Some requirement, or the one for the node's host name, has an operator that is none of the known
      four or is refused by the label library. */
  ghost predicate BadSelector(o: Options, spec: Spec) {
    spec.selectors != [] &&
    exists r :: (r in spec.selectors || r == Requirement("kubernetes.io/hostname", OpIn, [o.host]))
                && (r.operator.OpOther? || !o.requirementOk(r))
  }

  lemma BadSelectorIsUnusable(o: Options, spec: Spec)
    requires spec.selectors != []
    ensures BadSelector(o, spec) <==> !SelectorsUsable(o, spec.selectors)
  {
    var own := Requirement("kubernetes.io/hostname", OpIn, [o.host]);
    forall r ensures r in AllSelectors(o, spec.selectors) <==> r in spec.selectors || r == own { }
  }

  /** The gateway text and the error a round has to report. The source has no text for selectors or
      a gateway it cannot use, for a missing hop, and for an unreadable subnet. */
  ghost function WentWrong(s: Setup, w: World, h: Host, ch: Choices): (IpText, string)
    requires w.obj.Some?
  {
    var o, spec := s.options(h), w.obj.value.spec;
    if BadSelector(o, spec) then (Dotted(ZERO_IP), "")
    else if spec.selectors != [] && ch(LIST).fail.Some? then (Dotted(ZERO_IP), ch(LIST).fail.value)
    else if Overlaps(o, spec) then (Dotted(ZERO_IP), "given subnet overlaps with some protected subnet")
    else GatewayWrong(s, w, h, ch)
  }

  function GatewayWrong(s: Setup, w: World, h: Host, ch: Choices): (IpText, string)
    requires w.obj.Some?
  {
    var asked, c := w.obj.value.spec.gateway, ch(GATEWAY);
    if !asked.Dotted? && asked != EmptyText then (NilText, "")
    else if c.fail.Some? then (NilText, c.fail.value)
    else if asked.Dotted? && c.hop.Some?
    then (asked, "given gateway IP is not directly routable, cannot setup the route")
    else if asked.Dotted? then (asked, AddingError(s, w, h, ch))
    else if c.hop.None? then (NilText, "")
    else (Dotted(c.hop.value), AddingError(s, w, h, ch))
  }

  function AddingError(s: Setup, w: World, h: Host, ch: Choices): string
    requires w.obj.Some?
  {
    if w.obj.value.finalizers == [] && ch(ADD_FINALIZER).fail.Some? then ch(ADD_FINALIZER).fail.value
    else if s.name in ManagedOf(w, h) || ParseCIDR(w.obj.value.spec.subnet).None? then ""
    else if ch(REGISTER).fail.Some? && ch(REGISTER).fail.value != EEXIST then ch(REGISTER).fail.value
    else ""
  }

  /** The round reads the stored object and has neither to withdraw the node nor to leave it out. */
  ghost predicate HasToReport(s: Setup, w: World, h: Host, ch: Choices) {
    ErrorExits(s, w, h, ch)
    || (Reaches(s, w, h, ch) && Selected(s.options(h), w.obj.value.spec, ch) && !w.obj.value.deleting
        && !Changed(w.obj.value.status, h, w.obj.value.spec, Dotted(HopOf(w.obj.value.spec, ch(GATEWAY)))))
  }

  lemma OverlapsIsProtected(o: Options, spec: Spec)
    ensures Overlaps(o, spec) <==> !Unprotected(o, spec)
  {
    if Overlaps(o, spec) {
      var p, a: Ip :| p in o.protecteds && Contains(p, a) && Contains(ParseCIDR(spec.subnet).value, a);
      assert Overlap(p, ParseCIDR(spec.subnet).value);
    }
  }

  // ------------------------------------------------------------ the deferred report

  lemma TellsOf(w: World, h: Host, spec: Spec, gateway: Option<Ip>, err: Option<string>)
    requires w.obj.Some? && Distinct(w.obj.value.status) && StatusMatch(w.obj.value.status, h, spec, gateway, err)
    ensures Tells(w, h, spec, IpString(gateway), ErrorText(err))
  {
    var t := w.obj.value.status;
    var m :| m in t && Reports(m, h, spec, gateway, err);
    forall d, e | d in t && e in t && d.host == e.host ensures d == e {
      UniqueEntry(t, d, e);
    }
  }

  lemma RewrittenMatches(t: seq<Entry>, h: Host, spec: Spec, gateway: Option<Ip>, err: Option<string>)
    ensures StatusMatch(Rewritten(t, h, spec, gateway, err), h, spec, gateway, err)
  {
    assert NewEntry(h, spec, gateway, err) in Rewritten(t, h, spec, gateway, err);
  }

  /** The status of the object matches the outcome, and no route has moved unless the CR goes. */
  ghost predicate Matches(s: Setup, w: World, h: Host, gateway: Option<Ip>, err: Option<string>, w': World)
    requires w.obj.Some?
  {
    w'.obj.Some? && HistoryOk(w') && (!w.obj.value.deleting ==> w'.managed == w.managed)
    && StatusMatch(w'.obj.value.status, h, w.obj.value.spec, gateway, err)
  }

  lemma ReportEndsRound(s: Setup, w: World, h: Host, r: Resource, res: Result, err: Option<string>, ch: Choices)
    requires HistoryOk(w) && w.obj.Some? && ch(REPORT).fail.None?
    requires r.version == w.obj.value.version && !r.deleting && !w.obj.value.deleting && Distinct(r.status)
    ensures var w' := RunToEnd(s, w, h, AwaitReport(r, res, err), ch).world;
            w' == Commit(w, w.obj.value.(status := r.status)) && HistoryOk(w')
  {
    var w' := Commit(w, w.obj.value.(status := r.status));
    CommitHistory(w, w.obj.value.(status := r.status));
    OneStep(s, w, h, AwaitReport(r, res, err), ch, w', Done(res, err));
  }

  lemma ReportThenDeletion(s: Setup, w: World, h: Host, t: seq<Entry>, res: Result, err: Option<string>, ch: Choices)
    requires ValidSetup(s) && InDeletion(w) && w.obj.Some? && ch(REPORT).fail.None? && Distinct(t) && Listed(t, h)
    ensures var w' := RunToEnd(s, w, h, AwaitReport(w.obj.value.(status := t), res, err), ch).world;
            w'.obj.Some? && HistoryOk(w') && w'.obj.value.status == t
  {
    var r := w.obj.value.(status := t);
    var w1 := Commit(w, r);
    CommitHistory(w, r);
    assert w1.obj.value.(status := t) == w1.obj.value;
    OneStep(s, w, h, AwaitReport(r, res, err), ch, w1, AwaitDeregister(w1.obj.value, false));
    DeferredDeletion(s, w1, h, t, ch);
  }

  /** An accepted report, and the deferred deletion, leave a status that matches the outcome. */
  lemma FinishMatches(s: Setup, w: World, h: Host, gateway: Option<Ip>, res: Result, err: Option<string>, ch: Choices)
    requires ValidSetup(s) && HistoryOk(w) && w.obj.Some? && ch(REPORT).fail.None?
    ensures var q := Finish(s.options(h), true, w.obj.value, gateway, res, err);
            Matches(s, w, h, gateway, StatusError(res, err), RunToEnd(s, w, h, q, ch).world)
  {
    var r, serr := w.obj.value, StatusError(res, err);
    if StatusMatch(r.status, h, r.spec, gateway, serr) {
      MatchedAlready(s, w, h, gateway, res, err, ch);
    } else {
      WrittenMatches(s, w, h, r, gateway, res, err, ch);
    }
  }

  lemma WrittenMatches(s: Setup, w: World, h: Host, r: Resource, gateway: Option<Ip>, res: Result,
                       err: Option<string>, ch: Choices)
    requires ValidSetup(s) && HistoryOk(w) && w.obj.Some? && ch(REPORT).fail.None?
    requires r.(finalizers := w.obj.value.finalizers) == w.obj.value && (r.deleting ==> r == w.obj.value)
    ensures var serr := StatusError(res, err);
            var q := AwaitReport(r.(status := Rewritten(r.status, h, r.spec, gateway, serr)), res, err);
            Matches(s, w, h, gateway, serr, RunToEnd(s, w, h, q, ch).world)
  {
    var serr := StatusError(res, err);
    var t := Rewritten(r.status, h, r.spec, gateway, serr);
    RewrittenLaws(r.status, h, r.spec, gateway, serr);
    RewrittenMatches(r.status, h, r.spec, gateway, serr);
    if r.deleting {
      ReportThenDeletion(s, w, h, t, res, err, ch);
    } else {
      ReportEndsRound(s, w, h, r.(status := t), res, err, ch);
    }
  }

  lemma MatchedAlready(s: Setup, w: World, h: Host, gateway: Option<Ip>, res: Result, err: Option<string>, ch: Choices)
    requires ValidSetup(s) && HistoryOk(w) && w.obj.Some?
    requires StatusMatch(w.obj.value.status, h, w.obj.value.spec, gateway, StatusError(res, err))
    ensures var q := Finish(s.options(h), true, w.obj.value, gateway, res, err);
            Matches(s, w, h, gateway, StatusError(res, err), RunToEnd(s, w, h, q, ch).world)
  {
    var r := w.obj.value;
    if r.deleting {
      assert Listed(r.status, h) && r.(status := r.status) == r;
      DeferredDeletion(s, w, h, r.status, ch);
    }
  }

  // ------------------------------------------------------------ error exits

  /** The report that a finished stage makes is the one to be told. */
  ghost predicate Told(s: Setup, w: World, h: Host, told: (IpText, string), w': World)
    requires w.obj.Some?
  {
    w'.obj.Some? && Tells(w', h, w.obj.value.spec, told.0, told.1)
  }

  lemma FinishTold(s: Setup, w: World, h: Host, gateway: Option<Ip>, res: Result, err: Option<string>, ch: Choices)
    requires ValidSetup(s) && HistoryOk(w) && w.obj.Some? && ch(REPORT).fail.None?
    ensures var q := Finish(s.options(h), true, w.obj.value, gateway, res, err);
            Told(s, w, h, (IpString(gateway), ErrorText(StatusError(res, err))), RunToEnd(s, w, h, q, ch).world)
  {
    FinishMatches(s, w, h, gateway, res, err, ch);
    var q := Finish(s.options(h), true, w.obj.value, gateway, res, err);
    TellsOf(RunToEnd(s, w, h, q, ch).world, h, w.obj.value.spec, gateway, StatusError(res, err));
  }

  lemma UnusableTold(s: Setup, w: World, h: Host, ch: Choices)
    requires ValidSetup(s) && HistoryOk(w) && SeesObject(w, ch) && ch(REPORT).fail.None?
    requires w.obj.value.spec.selectors != [] && !SelectorsUsable(s.options(h), w.obj.value.spec.selectors)
    ensures Told(s, w, h, (Dotted(ZERO_IP), ""), Round(s, w, h, ch).world)
  {
    RoundFetches(s, w, h, ch);
    FinishTold(s, w, h, Some(ZERO_IP), WrongSelectorErr, None, ch);
  }

  lemma ListFailed(s: Setup, w: World, h: Host, ch: Choices)
    requires HistoryOk(w) && SeesObject(w, ch) && w.obj.value.spec.selectors != []
    requires SelectorsUsable(s.options(h), w.obj.value.spec.selectors) && ch(LIST).fail.Some?
    ensures var q := Finish(s.options(h), true, w.obj.value, Some(ZERO_IP), NodeGetError, ch(LIST).fail);
            Round(s, w, h, ch).world == RunToEnd(s, w, h, q, ch).world
  {
    RoundFetches(s, w, h, ch);
    ReadStep(s, w, h, AwaitList(w.obj.value), ch);
  }

  lemma ListTold(s: Setup, w: World, h: Host, ch: Choices)
    requires ValidSetup(s) && HistoryOk(w) && SeesObject(w, ch) && ch(REPORT).fail.None?
    requires w.obj.value.spec.selectors != [] && SelectorsUsable(s.options(h), w.obj.value.spec.selectors)
    requires ch(LIST).fail.Some?
    ensures Told(s, w, h, (Dotted(ZERO_IP), ch(LIST).fail.value), Round(s, w, h, ch).world)
  {
    ListFailed(s, w, h, ch);
    FinishTold(s, w, h, Some(ZERO_IP), NodeGetError, ch(LIST).fail, ch);
  }

  lemma ProtectedTold(s: Setup, w: World, h: Host, ch: Choices)
    requires ValidSetup(s) && HistoryOk(w) && w.obj.Some? && ch(REPORT).fail.None?
    requires Overlaps(s.options(h), w.obj.value.spec)
    ensures var q := AfterSelect(s.options(h), w.obj.value, false);
            Told(s, w, h, (Dotted(ZERO_IP), "given subnet overlaps with some protected subnet"),
                 RunToEnd(s, w, h, q, ch).world)
  {
    OverlapsIsProtected(s.options(h), w.obj.value.spec);
    FinishTold(s, w, h, Some(ZERO_IP), OverlapsProtected, None, ch);
  }

  lemma AskedStep(s: Setup, w: World, h: Host, ch: Choices)
    requires w.obj.Some? && Unprotected(s.options(h), w.obj.value.spec)
    requires w.obj.value.spec.gateway.Dotted? || w.obj.value.spec.gateway.EmptyText?
    ensures var o, r := s.options(h), w.obj.value;
            RunToEnd(s, w, h, AfterSelect(o, r, false), ch).world ==
            RunToEnd(s, w, h, GatewayAnswered(o, r, false, GatewayAnswer(ch(GATEWAY))), ch).world
  {
    ReadStep(s, w, h, AwaitGw(w.obj.value, false), ch);
  }

  /** The subnet is protected, or the gateway does not resolve. */
  lemma UnroutableTold(s: Setup, w: World, h: Host, ch: Choices)
    requires ValidSetup(s) && HistoryOk(w) && SeesObject(w, ch) && ch(REPORT).fail.None?
    requires Selected(s.options(h), w.obj.value.spec, ch) && !Routable(s, w, h, ch)
    ensures Told(s, w, h, WentWrong(s, w, h, ch), Round(s, w, h, ch).world)
  {
    var o, r := s.options(h), w.obj.value;
    RoundSelects(s, w, h, ch);
    OverlapsIsProtected(o, r.spec);
    if r.spec.selectors != [] { BadSelectorIsUnusable(o, r.spec); }
    if !Unprotected(o, r.spec) {
      ProtectedTold(s, w, h, ch);
    } else if !r.spec.gateway.Dotted? && !r.spec.gateway.EmptyText? {
      FinishTold(s, w, h, None, InvalidGatewayError, None, ch);
    } else {
      AskedStep(s, w, h, ch);
      UnresolvedTold(s, w, h, ch);
    }
  }

  function GatewayAnswer(c: Choice): Answer {
    if c.fail.Some? then AError(c.fail.value) else AHop(c.hop)
  }

  lemma UnresolvedFinish(o: Options, r: Resource, c: Choice)
    requires !Resolvable(r.spec, c) && (r.spec.gateway.Dotted? || r.spec.gateway.EmptyText?)
    ensures GatewayAnswered(o, r, false, GatewayAnswer(c)) ==
            if c.fail.Some? then Finish(o, true, r, None, RouteGetError, c.fail)
            else if r.spec.gateway.Dotted?
            then Finish(o, true, r, Some(r.spec.gateway.ip), GatewayNotDirectlyRoutableError, None)
            else Finish(o, true, r, None, NoResult, None)
  { }

  lemma UnresolvedTold(s: Setup, w: World, h: Host, ch: Choices)
    requires ValidSetup(s) && HistoryOk(w) && w.obj.Some? && ch(REPORT).fail.None?
    requires w.obj.value.spec.gateway.Dotted? || w.obj.value.spec.gateway.EmptyText?
    requires !Resolvable(w.obj.value.spec, ch(GATEWAY))
    ensures var q := GatewayAnswered(s.options(h), w.obj.value, false, GatewayAnswer(ch(GATEWAY)));
            Told(s, w, h, GatewayWrong(s, w, h, ch), RunToEnd(s, w, h, q, ch).world)
  {
    var r, c := w.obj.value, ch(GATEWAY);
    UnresolvedFinish(s.options(h), r, c);
    if c.fail.Some? {
      FinishTold(s, w, h, None, RouteGetError, c.fail, ch);
    } else if r.spec.gateway.Dotted? {
      FinishTold(s, w, h, Some(r.spec.gateway.ip), GatewayNotDirectlyRoutableError, None, ch);
    } else {
      FinishTold(s, w, h, None, NoResult, None, ch);
    }
  }

  // ------------------------------------------------------------ adding

  /** From the look-up on: registered, unreadable, refused, or newly registered. */
  lemma LookupMatches(s: Setup, w: World, h: Host, gw: Ip, ch: Choices) returns (err: Option<string>)
    requires ValidSetup(s) && HistoryOk(w) && w.obj.Some? && !w.obj.value.deleting && w.obj.value.finalizers != []
    requires ch(REPORT).fail.None?
    ensures var p := AwaitIsRegistered(w.obj.value, gw, TableOf(s.options(h), w.obj.value.spec));
            AddReported(s, w, h, gw, err, ch, RunToEnd(s, w, h, p, ch).world)
  {
    var o, r := s.options(h), w.obj.value;
    var p := AwaitIsRegistered(r, gw, TableOf(o, r.spec));
    err := None;
    if Holds(s, w, h) {
      OneStep(s, w, h, p, ch, w, Finish(o, true, r, Some(gw), Finished, None));
      FinishMatches(s, w, h, Some(gw), Finished, None, ch);
    } else if ParseCIDR(r.spec.subnet).None? {
      OneStep(s, w, h, p, ch, w, Finish(o, true, r, Some(gw), ParseSubnetError, None));
      FinishMatches(s, w, h, Some(gw), ParseSubnetError, None, ch);
    } else {
      var q := AwaitRegister(r, gw, Route(ParseCIDR(r.spec.subnet).value, gw, TableOf(o, r.spec)));
      OneStep(s, w, h, p, ch, w, q);
      err := RegisterMatches(s, w, h, gw, q, ch);
    }
  }

  ghost predicate ErrorsHaveTexts(ch: Choices) {
    forall k :: ch(k).fail.Some? ==> ch(k).fail.value != ""
  }

  /** The report of an attempt to add, and whether the route is in place. */
  ghost predicate AddReported(s: Setup, w: World, h: Host, gw: Ip, err: Option<string>, ch: Choices, w': World)
    requires w.obj.Some?
  {
    w'.obj.Some? && HistoryOk(w') && StatusMatch(w'.obj.value.status, h, w.obj.value.spec, Some(gw), err)
    && ErrorText(err) == AddingError(s, w, h, ch)
    && (ErrorText(err) == "" && ErrorsHaveTexts(ch) && ParseCIDR(w.obj.value.spec.subnet).Some? ==> Holds(s, w', h))
  }

  lemma RegisterMatches(s: Setup, w: World, h: Host, gw: Ip, p: Proc, ch: Choices) returns (err: Option<string>)
    requires ValidSetup(s) && HistoryOk(w) && w.obj.Some? && !w.obj.value.deleting && w.obj.value.finalizers != []
    requires ch(REPORT).fail.None? && !Holds(s, w, h) && ParseCIDR(w.obj.value.spec.subnet).Some?
    requires p.AwaitRegister? && p.w == w.obj.value && p.gw == gw
    ensures AddReported(s, w, h, gw, err, ch, RunToEnd(s, w, h, p, ch).world)
  {
    var w1 := Answered(s, w, h, p, ch).0;
    var res := if RegisterFails(ch) then RegisterRouteError else Finished;
    err := if RegisterFails(ch) then ch(REGISTER).fail else None;
    RegisterStage(s, w, h, gw, p, ch);
    FinishMatches(s, w1, h, Some(gw), res, err, ch);
    AddReportedFrom(s, w, h, gw, err, ch, w1, RunToEnd(s, w, h, p, ch).world);
  }

  lemma AddReportedFrom(s: Setup, w: World, h: Host, gw: Ip, err: Option<string>, ch: Choices, w1: World, w': World)
    requires w.obj.Some? && !w.obj.value.deleting && w.obj.value.finalizers != [] && !Holds(s, w, h)
    requires ParseCIDR(w.obj.value.spec.subnet).Some? && w1.obj == w.obj && Matches(s, w1, h, Some(gw), err, w')
    requires err == if RegisterFails(ch) then ch(REGISTER).fail else None
    requires Holds(s, w1, h) <==> !RegisterFails(ch)
    ensures AddReported(s, w, h, gw, err, ch, w')
  { }

  predicate RegisterFails(ch: Choices) {
    ch(REGISTER).fail.Some? && ch(REGISTER).fail.value != EEXIST
  }

  lemma RegisterStage(s: Setup, w: World, h: Host, gw: Ip, p: Proc, ch: Choices)
    requires ValidSetup(s) && HistoryOk(w) && w.obj.Some? && !Holds(s, w, h)
    requires p.AwaitRegister? && p.w == w.obj.value && p.gw == gw
    ensures var o, w1 := s.options(h), Answered(s, w, h, p, ch).0;
            HistoryOk(w1) && w1.obj == w.obj && (Holds(s, w1, h) <==> !RegisterFails(ch))
            && var res := if RegisterFails(ch) then RegisterRouteError else Finished;
               var err := if RegisterFails(ch) then ch(REGISTER).fail else None;
               RunToEnd(s, w, h, p, ch).world == RunToEnd(s, w1, h, Finish(o, true, p.w, Some(gw), res, err), ch).world
  {
    var (w1, a) := Answered(s, w, h, p, ch);
    assert w1 == w.(managed := w1.managed);
    assert a == AReply(if RegisterFails(ch) then Failed(ch(REGISTER).fail.value) else Ok);
  }

  lemma AddingMatches(s: Setup, w: World, h: Host, gw: Ip, ch: Choices) returns (err: Option<string>)
    requires ValidSetup(s) && HistoryOk(w) && w.obj.Some? && !w.obj.value.deleting && ch(REPORT).fail.None?
    ensures var p := Adding(w.obj.value, gw, TableOf(s.options(h), w.obj.value.spec));
            AddReported(s, w, h, gw, err, ch, RunToEnd(s, w, h, p, ch).world)
  {
    var o, r := s.options(h), w.obj.value;
    var table := TableOf(o, r.spec);
    if r.finalizers != [] {
      err := LookupMatches(s, w, h, gw, ch);
    } else if ch(ADD_FINALIZER).fail.Some? {
      err := ch(ADD_FINALIZER).fail;
      FinalizerRefused(s, w, h, gw, table, ch);
    } else {
      FinalizerStep(s, w, h, gw, table, ch);
      err := LookupMatches(s, Commit(w, r.(finalizers := [FINALIZER])), h, gw, ch);
    }
  }

  /** A refused finalizer write ends the round with a report, which is about the status only. */
  lemma FinalizerRefused(s: Setup, w: World, h: Host, gw: Ip, table: int, ch: Choices)
    requires ValidSetup(s) && HistoryOk(w) && w.obj.Some? && !w.obj.value.deleting && ch(REPORT).fail.None?
    requires w.obj.value.finalizers == [] && ch(ADD_FINALIZER).fail.Some?
    ensures Matches(s, w, h, Some(gw), ch(ADD_FINALIZER).fail,
                    RunToEnd(s, w, h, Adding(w.obj.value, gw, table), ch).world)
  {
    var o, r, err := s.options(h), w.obj.value.(finalizers := [FINALIZER]), ch(ADD_FINALIZER).fail;
    var q := Finish(o, true, r, Some(gw), SetFinalizerError, err);
    OneStep(s, w, h, Adding(w.obj.value, gw, table), ch, w, q);
    if q.AwaitReport? {
      WrittenMatches(s, w, h, r, Some(gw), SetFinalizerError, err, ch);
    }
  }

  // ------------------------------------------------------------ whole rounds

  /** Whatever a round meets, if its report is accepted the node's one entry says just that. */
  lemma RoundTells(s: Setup, w: World, h: Host, ch: Choices)
    requires ValidSetup(s) && HistoryOk(w) && HasToReport(s, w, h, ch) && ch(REPORT).fail.None?
    ensures var (gateway, error) := WentWrong(s, w, h, ch);
            Tells(Round(s, w, h, ch).world, h, w.obj.value.spec, gateway, error)
  {
    var o, r, w' := s.options(h), w.obj.value, Round(s, w, h, ch).world;
    if r.spec.selectors != [] { BadSelectorIsUnusable(o, r.spec); }
    if ErrorExits(s, w, h, ch) && !Selected(o, r.spec, ch) {
      if SelectorsUsable(o, r.spec.selectors) { ListTold(s, w, h, ch); } else { UnusableTold(s, w, h, ch); }
    } else if ErrorExits(s, w, h, ch) {
      UnroutableTold(s, w, h, ch);
    } else {
      var gw := HopOf(r.spec, ch(GATEWAY));
      OverlapsIsProtected(o, r.spec);
      SelectedRound(s, w, h, ch, gw);
      var err := AddingMatches(s, w, h, gw, ch);
      TellsOf(w', h, r.spec, Some(gw), err);
    }
  }

  /** What the source reports without a text: selectors or a gateway it cannot use, no hop towards the
      fallback address, an unreadable subnet. */
  ghost predicate Textless(s: Setup, w: World, h: Host, ch: Choices)
    requires w.obj.Some?
  {
    var spec := w.obj.value.spec;
    BadSelector(s.options(h), spec)
    || (!spec.gateway.Dotted? && spec.gateway != EmptyText)
    || (spec.gateway.EmptyText? && ch(GATEWAY).hop.None?)
    || ParseCIDR(spec.subnet).None?
  }

  lemma AddedUnlessTold(s: Setup, w: World, h: Host, ch: Choices)
    requires ValidSetup(s) && HistoryOk(w) && HasToReport(s, w, h, ch) && ch(REPORT).fail.None? && ErrorsHaveTexts(ch)
    requires WentWrong(s, w, h, ch).1 == "" && !Textless(s, w, h, ch)
    ensures Holds(s, Round(s, w, h, ch).world, h)
  {
    var o, r := s.options(h), w.obj.value;
    OverlapsIsProtected(o, r.spec);
    if r.spec.selectors != [] { BadSelectorIsUnusable(o, r.spec); }
    assert Routable(s, w, h, ch) && Selected(o, r.spec, ch);
    var gw := HopOf(r.spec, ch(GATEWAY));
    SelectedRound(s, w, h, ch, gw);
    var err := AddingMatches(s, w, h, gw, ch);
  }

  /** After an accepted report an entry without an error means that the route is registered, unless
      the round ended where the source has no text. */
  lemma NoErrorMeansAdded(s: Setup, w: World, h: Host, ch: Choices, e: Entry)
    requires ValidSetup(s) && HistoryOk(w) && HasToReport(s, w, h, ch) && ch(REPORT).fail.None? && ErrorsHaveTexts(ch)
    requires ListedIn(Round(s, w, h, ch).world, h) && e in Round(s, w, h, ch).world.obj.value.status && e.host == h
    requires e.error == ""
    ensures Holds(s, Round(s, w, h, ch).world, h) || Textless(s, w, h, ch)
  {
    RoundTells(s, w, h, ch);
    if !Textless(s, w, h, ch) {
      AddedUnlessTold(s, w, h, ch);
    }
  }
}
