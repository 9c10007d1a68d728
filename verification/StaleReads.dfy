/** What one read of an old version can do: a round that finds its old entry in the cache puts the
    old route back and reports nothing, and the next request takes it for its own. */
module StaleReads {
  import opened Ipv4
  import opened Optional
  import opened StaticRoutes
  import opened RouteManager
  import opened Reconcile
  import opened Cluster
  import opened FineSteps
  import opened Neighbours
  import opened Rounds
  import opened Truth
  import opened Settling
  import opened Convergence
  import opened Fallback

  /** A round in which nothing fails, but whose read returns the given version. */
  function QuietFrom(version: nat): Choices {
    (k: nat) => Choice(None, if k == GET then Cached(version) else Latest, 0, None)
  }

  /** The new request is stored, no entry is, and the old version is still known. */
  ghost predicate Withdrew(s: Setup, w: World, h: Host, spec: Spec, gw: Ip, before: Resource) {
    HistoryOk(w) && before.version in w.hist && w.hist[before.version] == before
    && w.obj.Some? && w.obj.value.spec == Asking(spec, gw, NEW_TABLE)
    && !w.obj.value.deleting && w.obj.value.status == [] && w.obj.value.finalizers == []
  }

  lemma ChangedRound(s: Setup, w: World, h: Host, ch: Choices, gw: Ip)
    requires ValidSetup(s) && Promising(s, w, h, ch, gw) && Changed(w.obj.value.status, h, w.obj.value.spec, Dotted(gw))
    ensures Withdrawn(s, w, h, Round(s, w, h, ch).world)
  {
    assert Listed(w.obj.value.status, h);
    SelectedRound(s, w, h, ch, gw);
    WithdrawRuns(s, w, h, true, ch);
  }

  /** The edit is noticed: the route and the entry go. */
  lemma EditWithdraws(s: Setup, w: World, h: Host, spec: Spec, gw: Ip)
    requires ValidSetup(s) && Converged(s, w, h, gw) && Plain(s, h, spec)
    requires w.obj.value.spec == Asking(spec, gw, OLD_TABLE) && Without(w.obj.value.status, h) == []
    ensures var w' := Round(s, Edited(w, Asking(spec, gw, NEW_TABLE)), h, Quiet(None)).world;
            Withdrew(s, w', h, spec, gw, w.obj.value) && !Holds(s, w', h)
  {
    var asked := Asking(spec, gw, NEW_TABLE);
    var w1, ch := Edited(w, asked), Quiet(None);
    EditedWorld(s, w, h, asked);
    CommitHistory(w, w.obj.value.(spec := asked));
    EditedIsChanged(s, w, h, spec, gw);
    ChangedRound(s, w1, h, ch, gw);
    StagesKeepHistory(s, w1, h, AwaitGet, ch);
  }

  /** From the old version on, a round registers the old route and has nothing to report. */
  lemma OldStages(s: Setup, w: World, h: Host, spec: Spec, gw: Ip, r: Resource, ch: Choices)
    requires ValidSetup(s) && Plain(s, h, spec) && r.spec == Asking(spec, gw, OLD_TABLE) && !Holds(s, w, h)
    requires r.finalizers != [] && !r.deleting && !Changed(r.status, h, r.spec, Dotted(gw))
    requires ch(GATEWAY) == Choice(None, Latest, 0, None)
    ensures var o := s.options(h);
            Fetched(o, r) == AwaitGw(r, false)
            && Answered(s, w, h, AwaitGw(r, false), ch) == (w, AHop(None))
            && Advance(o, AwaitGw(r, false), AHop(None)) == AwaitIsRegistered(r, gw, OLD_TABLE)
            && Answered(s, w, h, AwaitIsRegistered(r, gw, OLD_TABLE), ch) == (w, ABool(false))
            && Advance(o, AwaitIsRegistered(r, gw, OLD_TABLE), ABool(false)) ==
               AwaitRegister(r, gw, Route(ParseCIDR(spec.subnet).value, gw, OLD_TABLE))
  { }

  lemma OldRegister(s: Setup, w: World, h: Host, gw: Ip, route: Route, r: Resource, ch: Choices)
    requires ValidSetup(s) && !Holds(s, w, h) && !r.deleting && ch(REGISTER).fail.None?
    requires StatusMatch(r.status, h, r.spec, Some(gw), None)
    ensures var w' := RunToEnd(s, w, h, AwaitRegister(r, gw, route), ch).world;
            w' == w.(managed := w'.managed) && HeldRoute(s, w', h) == Some(route)
  {
    var p := AwaitRegister(r, gw, route);
    var (w', a) := Answered(s, w, h, p, ch);
    OneStep(s, w, h, p, ch, w', Done(Finished, None));
    assert RunToEnd(s, w', h, Done(Finished, None), ch).world == w';
  }

  /** The round with the old read: the old route is back, and the object as it was. */
  lemma OldRound(s: Setup, w: World, h: Host, spec: Spec, gw: Ip, r: Resource)
    requires ValidSetup(s) && Plain(s, h, spec) && r.spec == Asking(spec, gw, OLD_TABLE) && !Holds(s, w, h)
    requires r.finalizers != [] && !r.deleting && !Changed(r.status, h, r.spec, Dotted(gw))
    requires StatusMatch(r.status, h, r.spec, Some(gw), None) && r.version in w.hist && w.hist[r.version] == r
    ensures var w' := Round(s, w, h, QuietFrom(r.version)).world;
            w' == w.(managed := w'.managed) && HeldRoute(s, w', h).Some? && HeldRoute(s, w', h).value.table == OLD_TABLE
  {
    var ch := QuietFrom(r.version);
    var route := Route(ParseCIDR(spec.subnet).value, gw, OLD_TABLE);
    OldStages(s, w, h, spec, gw, r, ch);
    OneStep(s, w, h, AwaitGet, ch, w, AwaitGw(r, false));
    OneStep(s, w, h, AwaitGw(r, false), ch, w, AwaitIsRegistered(r, gw, OLD_TABLE));
    OneStep(s, w, h, AwaitIsRegistered(r, gw, OLD_TABLE), ch, w, AwaitRegister(r, gw, route));
    OldRegister(s, w, h, gw, route, r, ch);
  }

  /** The next fresh round finds a route in place and reports it as the requested one. */
  lemma FreshRoundLies(s: Setup, w: World, h: Host, spec: Spec, gw: Ip, before: Resource)
    requires ValidSetup(s) && Withdrew(s, w, h, spec, gw, before) && Plain(s, h, spec) && gw != ZERO_IP && h in w.live
    requires HeldRoute(s, w, h).Some? && HeldRoute(s, w, h).value.table == OLD_TABLE
    ensures Lies(s, Round(s, w, h, Quiet(None)).world, h)
  {
    var r, ch := w.obj.value.(finalizers := [FINALIZER]), Quiet(None);
    var w1 := Commit(w, r);
    SelectedRound(s, w, h, ch, gw);
    FinalizerStep(s, w, h, gw, NEW_TABLE, ch);
    assert HeldRoute(s, w1, h) == HeldRoute(s, w, h);
    HeldFromLookup(s, w1, h, None, gw);
    ReportedLies(s, w1, h, gw);
  }

  /** Converged, then edited and withdrawn, as a run. */
  lemma RunToWithdrawal(s: Setup, net: Network, trust: Trust, h: Host, spec: Spec, gw: Ip)
    returns (ws: seq<World>, turns: seq<Turn>, r: Resource)
    requires ValidSetup(s) && Plain(s, h, spec) && net(h, gw).Direct?
    ensures FaithfulFor(s, net, trust, ws, turns, h) && h in ws[|turns|].live
    ensures Withdrew(s, ws[|turns|], h, spec, gw, r) && !Holds(s, ws[|turns|], h)
    ensures r.spec == Asking(spec, gw, OLD_TABLE) && r.finalizers != [] && !r.deleting
    ensures !Changed(r.status, h, r.spec, Dotted(gw)) && StatusMatch(r.status, h, r.spec, Some(gw), None)
  {
    var asked := Asking(spec, gw, NEW_TABLE);
    ws, turns := ConvergedRun(s, net, trust, h, spec, gw);
    r := ws[|turns|].obj.value;
    EditWithdraws(s, ws[|turns|], h, spec, gw);
    ws, turns := EditAndRound(s, net, trust, ws, turns, h, asked, Quiet(None));
  }

  /** If reads may be old, some run without any failure ends with a false entry. */
  lemma FreshReadsMatter(s: Setup, net: Network, trust: Trust, h: Host, spec: Spec, gw: Ip)
    requires ValidSetup(s) && Plain(s, h, spec) && gw != ZERO_IP && net(h, gw).Direct? && !trust.upToDate
    ensures !NeverLies(s, net, trust, h)
  {
    var ws, turns, r := RunToWithdrawal(s, net, trust, h, spec, gw);
    var w, ch := ws[|turns|], QuietFrom(r.version);
    OldRound(s, w, h, spec, gw, r);
    PlainRoundFaithful(s, net, trust, w, h, r, ch);
    ws, turns := OneMoreFaithful(s, net, trust, ws, turns, RoundOf(h, ch), h);
    var w1 := ws[|turns|];
    FreshRoundLies(s, w1, h, spec, gw, r);
    PlainRoundFaithful(s, net, trust, w1, h, w1.obj.value, Quiet(None));
    ws, turns := OneMoreFaithful(s, net, trust, ws, turns, RoundOf(h, Quiet(None)), h);
    OneLie(s, net, trust, h, ws, turns);
  }
}
