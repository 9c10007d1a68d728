/** Which API failures the truth of the status can stand: all but refusals of the two status writes
    and reads of old versions. Any of these leads to a false entry on any node that can reach a
    gateway. */
module Refusals {
  import opened Ipv4
  import opened Optional
  import opened StaticRoutes
  import opened RouteManager
  import opened Reconcile
  import opened Cluster
  import opened FineSteps
  import opened Truth
  import opened Settling
  import opened Convergence
  import opened Fallback
  import opened StaleReads

  const REFUSED := "refused"

  /** A round that finds its gateway directly routable and fails at one stage only. */
  function QuietBut(stage: nat): Choices {
    (k: nat) => Choice(if k == stage then Some(REFUSED) else None, Latest, 0, None)
  }

  // ------------------------------------------------------------ a refused withdrawal

  /** The changed route is released, but its entry stays. */
  lemma ReleasedButListed(s: Setup, w: World, h: Host, gw: Ip)
    requires ValidSetup(s) && HistoryOk(w) && w.obj.Some? && !w.obj.value.deleting
    requires Plain(s, h, w.obj.value.spec) && w.obj.value.spec.gateway == Dotted(gw)
    requires Changed(w.obj.value.status, h, w.obj.value.spec, Dotted(gw))
    ensures var w' := Round(s, w, h, QuietBut(DEL_STATUS)).world; w'.obj == w.obj && !Holds(s, w', h)
  {
    var ch, r := QuietBut(DEL_STATUS), w.obj.value;
    var r' := r.(status := Without(r.status, h));
    assert Listed(r.status, h);
    SelectedRound(s, w, h, ch, gw);
    WithoutDistinct(r.status, h);
    DeletionRuns(s, w, h, r', true, ch);
  }

  /** After a converged node's request has changed and the withdrawal is refused, it lies. */
  lemma RefusedWithdrawalLies(s: Setup, w: World, h: Host, spec: Spec, gw: Ip)
    requires ValidSetup(s) && Converged(s, w, h, gw) && h in w.live && Plain(s, h, spec) && gw != ZERO_IP
    requires w.obj.value.spec == Asking(spec, gw, OLD_TABLE)
    ensures Lies(s, Round(s, Edited(w, Asking(spec, gw, NEW_TABLE)), h, QuietBut(DEL_STATUS)).world, h)
  {
    var asked := Asking(spec, gw, NEW_TABLE);
    var w1, ch := Edited(w, asked), QuietBut(DEL_STATUS);
    EditedWorld(s, w, h, asked);
    var m :| m in w.obj.value.status && Reports(m, h, w.obj.value.spec, Some(gw), None);
    EditedIsChanged(s, w, h, spec, gw);
    ReleasedButListed(s, w1, h, gw);
    RunFrame(s, w1, h, AwaitGet, ch);
    assert Claims(m);
  }

  // ------------------------------------------------------------ a refused report

  /** The route is in place, in the old table, and nobody says so. */
  ghost predicate Silent(s: Setup, w: World, h: Host, spec: Spec) {
    HistoryOk(w) && w.obj.Some? && w.obj.value.finalizers != [] && !w.obj.value.deleting
    && w.obj.value.spec == spec && w.obj.value.status == []
    && HeldRoute(s, w, h).Some? && HeldRoute(s, w, h).value.table == OLD_TABLE
  }

  lemma ReportRefused(s: Setup, w: World, h: Host, r: Resource, ch: Choices)
    requires ch(REPORT).fail.Some? && !r.deleting
    ensures RunToEnd(s, w, h, AwaitReport(r, Finished, None), ch).world == w
  {
    var p := AwaitReport(r, Finished, None);
    var (w', a) := Answered(s, w, h, p, ch);
    OneStep(s, w, h, p, ch, w, Advance(s.options(h), p, a));
  }

  lemma RegisteredSilently(s: Setup, w: World, h: Host, spec: Spec, gw: Ip)
    requires ValidSetup(s) && HistoryOk(w) && !Holds(s, w, h)
    requires w.obj.Some? && w.obj.value == Resource(w.obj.value.version, spec, false, [FINALIZER], [])
    requires Plain(s, h, spec) && spec.table == Some(OLD_TABLE)
    ensures var p := AwaitIsRegistered(w.obj.value, gw, TableOf(s.options(h), spec));
            Silent(s, RunToEnd(s, w, h, p, QuietBut(REPORT)).world, h, spec)
  {
    var r, ch := w.obj.value, QuietBut(REPORT);
    var route := Route(ParseCIDR(spec.subnet).value, gw, OLD_TABLE);
    var p := AwaitRegister(r, gw, route);
    var reported := r.(status := Rewritten(r.status, h, spec, Some(gw), None));
    OneStep(s, w, h, AwaitIsRegistered(r, gw, OLD_TABLE), ch, w, p);
    RegisterAdvances(s, w, h, gw, route, ch);
    var w1 := Answered(s, w, h, p, ch).0;
    OneStep(s, w, h, p, ch, w1, AwaitReport(reported, Finished, None));
    ReportRefused(s, w1, h, reported, ch);
  }

  lemma FirstReportRefused(s: Setup, live: set<Host>, h: Host, spec: Spec, gw: Ip)
    requires ValidSetup(s) && Plain(s, h, spec) && spec.gateway == Dotted(gw) && spec.table == Some(OLD_TABLE)
    ensures Silent(s, Round(s, Created(live, spec), h, QuietBut(REPORT)).world, h, spec)
  {
    var w, ch := Created(live, spec), QuietBut(REPORT);
    var r := w.obj.value;
    CommitHistory(FirstWorld(live), Resource(0, spec, false, [], []));
    SelectedRound(s, w, h, ch, gw);
    FinalizerStep(s, w, h, gw, OLD_TABLE, ch);
    RegisteredSilently(s, Commit(w, r.(finalizers := [FINALIZER])), h, spec, gw);
  }

  /** The next request finds a route in place and reports it as its own. */
  lemma SilentThenLies(s: Setup, w: World, h: Host, spec: Spec, gw: Ip)
    requires ValidSetup(s) && Silent(s, w, h, Asking(spec, gw, OLD_TABLE)) && Plain(s, h, spec)
    requires gw != ZERO_IP && h in w.live
    ensures Lies(s, Round(s, Edited(w, Asking(spec, gw, NEW_TABLE)), h, Quiet(None)).world, h)
  {
    var w1 := Edited(w, Asking(spec, gw, NEW_TABLE));
    EditedWorld(s, w, h, Asking(spec, gw, NEW_TABLE));
    HeldRound(s, w1, h, None, gw);
    ReportedLies(s, w1, h, gw);
  }

  // ------------------------------------------------------------ the runs

  lemma DelStatusMatters(s: Setup, net: Network, trust: Trust, h: Host, spec: Spec, gw: Ip)
    requires ValidSetup(s) && Plain(s, h, spec) && gw != ZERO_IP && net(h, gw).Direct? && DEL_STATUS !in trust.sure
    ensures !NeverLies(s, net, trust, h)
  {
    var ws, turns := ConvergedRun(s, net, trust, h, spec, gw);
    RefusedWithdrawalLies(s, ws[|turns|], h, spec, gw);
    ws, turns := EditAndRound(s, net, trust, ws, turns, h, Asking(spec, gw, NEW_TABLE), QuietBut(DEL_STATUS));
    OneLie(s, net, trust, h, ws, turns);
  }

  lemma ReportMatters(s: Setup, net: Network, trust: Trust, h: Host, spec: Spec, gw: Ip)
    requires ValidSetup(s) && Plain(s, h, spec) && gw != ZERO_IP && net(h, gw).Direct? && REPORT !in trust.sure
    ensures !NeverLies(s, net, trust, h)
  {
    var first := Asking(spec, gw, OLD_TABLE);
    FirstReportRefused(s, {h}, h, first, gw);
    var ws, turns := CreateAndRound(s, net, trust, {h}, h, first, QuietBut(REPORT));
    SilentThenLies(s, ws[|turns|], h, spec, gw);
    ws, turns := EditAndRound(s, net, trust, ws, turns, h, Asking(spec, gw, NEW_TABLE), Quiet(None));
    OneLie(s, net, trust, h, ws, turns);
  }

  /** The exact condition of the status's truth on a node that reaches some gateway directly: its
      fallback does not lead to a gateway behind a router, neither status write is ever refused,
      and every round reads the current version. All other calls may fail. */
  lemma TrueExactlyIf(s: Setup, net: Network, trust: Trust, h: Host, spec: Spec, gw: Ip)
    requires ValidSetup(s) && Plain(s, h, spec) && gw != ZERO_IP && net(h, gw).Direct?
    ensures NeverLies(s, net, trust, h) <==>
            FallbackSound(s, net, h) && REPORT in trust.sure && DEL_STATUS in trust.sure && trust.upToDate
  {
    if REPORT !in trust.sure {
      ReportMatters(s, net, trust, h, spec, gw);
    } else if DEL_STATUS !in trust.sure {
      DelStatusMatters(s, net, trust, h, spec, gw);
    } else if !trust.upToDate {
      FreshReadsMatter(s, net, trust, h, spec, gw);
    } else {
      TruthExactly(s, net, trust, h, spec);
    }
  }
}
