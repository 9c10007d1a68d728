/** Convergence: two undisturbed rounds of a selected node bring it to what the spec asks for,
    whatever the other nodes' rounds do before, between and after them, and it stays there. */
module Convergence {
  import opened Ipv4
  import opened Optional
  import opened StaticRoutes
  import opened RouteManager
  import opened Reconcile
  import opened Cluster
  import opened FineSteps
  import opened Neighbours
  import opened Rounds
  import opened Truth
  import opened Settling

  // ------------------------------------------------------------ one round

  /** The node has what the spec asks for, and says so. */
  ghost predicate Converged(s: Setup, w: World, h: Host, gw: Ip) {
    HistoryOk(w) && w.obj.Some? && w.obj.value.finalizers != [] && !w.obj.value.deleting &&
    var r := w.obj.value;
    ParseCIDR(r.spec.subnet).Some?
    && HeldRoute(s, w, h) == Some(Route(ParseCIDR(r.spec.subnet).value, gw, TableOf(s.options(h), r.spec)))
    && !Changed(r.status, h, r.spec, Dotted(gw))
    && StatusMatch(r.status, h, r.spec, Some(gw), None)
  }

  /** The rest of the world around a round of `h`: other nodes' entries and routes. */
  ghost predicate RestKept(s: Setup, w: World, h: Host, w': World) {
    w.obj.Some? && w'.obj.Some? && w'.live == w.live && w'.obj.value.spec == w.obj.value.spec
    && Without(w'.obj.value.status, h) == Without(w.obj.value.status, h)
    && forall g :: g != h ==> ManagedOf(w', g) == ManagedOf(w, g)
  }

  /** A round that can add: the node is selected, the subnet is readable and unprotected, the
      gateway resolves, and nothing fails. */
  ghost predicate Addable(o: Options, spec: Spec, ch: Choices, gw: Ip) {
    Undisturbed(ch) && Selected(o, spec, ch) && Unprotected(o, spec) && ResolvesTo(spec, ch(GATEWAY), gw)
    && ParseCIDR(spec.subnet).Some?
  }

  ghost predicate Promising(s: Setup, w: World, h: Host, ch: Choices, gw: Ip) {
    HistoryOk(w) && w.obj.Some? && !w.obj.value.deleting && Addable(s.options(h), w.obj.value.spec, ch, gw)
  }

  /** A gateway that is an address and not behind a router. */
  predicate RealHop(net: Network, h: Host, gw: Ip) {
    gw != ZERO_IP && !net(h, gw).Via?
  }

  lemma FinalizerStep(s: Setup, w: World, h: Host, gw: Ip, table: int, ch: Choices)
    requires HistoryOk(w) && w.obj.Some? && ch(ADD_FINALIZER).fail.None?
    requires w.obj.value.finalizers == [] && !w.obj.value.deleting
    ensures var r := w.obj.value.(finalizers := [FINALIZER]);
            RunToEnd(s, w, h, Adding(w.obj.value, gw, table), ch).world ==
            RunToEnd(s, Commit(w, r), h, AwaitIsRegistered(r.(version := w.next), gw, table), ch).world
    ensures var w' := Commit(w, w.obj.value.(finalizers := [FINALIZER]));
            HistoryOk(w') && w'.obj == Some(w.obj.value.(finalizers := [FINALIZER], version := w.next))
  {
    var r := w.obj.value.(finalizers := [FINALIZER]);
    CommitHistory(w, r);
    assert w.obj.value.(spec := r.spec, finalizers := r.finalizers) == r;
  }

  lemma ReportStep(s: Setup, w: World, h: Host, r: Resource, ch: Choices)
    requires HistoryOk(w) && w.obj.Some? && WritesAccepted(ch) && !w.obj.value.deleting
    requires r.version == w.obj.value.version && Distinct(r.status)
    ensures RunToEnd(s, w, h, AwaitReport(r, Finished, None), ch).world == Commit(w, w.obj.value.(status := r.status))
    ensures HistoryOk(Commit(w, w.obj.value.(status := r.status)))
  {
    CommitHistory(w, w.obj.value.(status := r.status));
    var (w', a) := Answered(s, w, h, AwaitReport(r, Finished, None), ch);
    assert w' == Commit(w, w.obj.value.(status := r.status));
  }

  /** A fresh report makes the status match. */
  lemma ReportedMatches(status: seq<Entry>, h: Host, spec: Spec, gw: Ip)
    ensures var t := Rewritten(status, h, spec, Some(gw), None);
            StatusMatch(t, h, spec, Some(gw), None) && !Changed(t, h, spec, Dotted(gw))
  {
    var t := Rewritten(status, h, spec, Some(gw), None);
    var e := NewEntry(h, spec, Some(gw), None);
    assert e in t && Reports(e, h, spec, Some(gw), None);
    forall x | x in t && x.host == h ensures SameRequest(x.state, spec, Dotted(gw)) {
      RewrittenEntry(status, h, spec, Some(gw), None, x);
    }
  }

  /** An undisturbed registration succeeds and leads to the report. */
  lemma RegisterAdvances(s: Setup, w: World, h: Host, gw: Ip, route: Route, ch: Choices)
    requires ValidSetup(s) && w.obj.Some? && !Holds(s, w, h)
    requires !StatusMatch(w.obj.value.status, h, w.obj.value.spec, Some(gw), None)
    requires ch(REGISTER).fail.Some? ==> ch(REGISTER).fail.value == EEXIST
    ensures var p := AwaitRegister(w.obj.value, gw, route);
            var t := Rewritten(w.obj.value.status, h, w.obj.value.spec, Some(gw), None);
            var (w1, a) := Answered(s, w, h, p, ch);
            Advance(s.options(h), p, a) == AwaitReport(w.obj.value.(status := t), Finished, None)
            && w1 == w.(managed := w1.managed) && HeldRoute(s, w1, h) == Some(route)
            && forall g :: g != h ==> ManagedOf(w1, g) == ManagedOf(w, g)
  {
    var (w1, a) := Answered(s, w, h, AwaitRegister(w.obj.value, gw, route), ch);
    assert a == AReply(Ok);
  }

  /** A fresh report after a registration completes convergence. */
  lemma ReportConverges(s: Setup, w: World, h: Host, gw: Ip, w': World)
    requires ValidSetup(s)
    requires HistoryOk(w') && w.obj.Some? && w.obj.value.finalizers != [] && !w.obj.value.deleting
    requires var r := w.obj.value;
             w' == Commit(w, r.(status := Rewritten(r.status, h, r.spec, Some(gw), None)))
             && ParseCIDR(r.spec.subnet).Some?
             && HeldRoute(s, w, h) == Some(Route(ParseCIDR(r.spec.subnet).value, gw, TableOf(s.options(h), r.spec)))
    ensures Converged(s, w', h, gw) && RestKept(s, w, h, w')
  {
    var r := w.obj.value;
    ReportedMatches(r.status, h, r.spec, gw);
    RewrittenLaws(r.status, h, r.spec, Some(gw), None);
    assert HeldRoute(s, w', h) == HeldRoute(s, w, h);
  }

  lemma RegisterThenReport(s: Setup, w: World, h: Host, gw: Ip, route: Route, ch: Choices)
    requires ValidSetup(s) && HistoryOk(w) && Undisturbed(ch)
    requires w.obj.Some? && w.obj.value.finalizers != [] && !w.obj.value.deleting && !Holds(s, w, h)
    requires !StatusMatch(w.obj.value.status, h, w.obj.value.spec, Some(gw), None)
    requires ParseCIDR(w.obj.value.spec.subnet).Some?
    requires route == Route(ParseCIDR(w.obj.value.spec.subnet).value, gw, TableOf(s.options(h), w.obj.value.spec))
    ensures var w' := RunToEnd(s, w, h, AwaitRegister(w.obj.value, gw, route), ch).world;
            Converged(s, w', h, gw) && RestKept(s, w, h, w')
  {
    var r, p := w.obj.value, AwaitRegister(w.obj.value, gw, route);
    var reported := r.(status := Rewritten(r.status, h, r.spec, Some(gw), None));
    var w1 := Answered(s, w, h, p, ch).0;
    RegisterAdvances(s, w, h, gw, route, ch);
    OneStep(s, w, h, p, ch, w1, AwaitReport(reported, Finished, None));
    RewrittenLaws(r.status, h, r.spec, Some(gw), None);
    ReportStep(s, w1, h, reported, ch);
    ReportConverges(s, w1, h, gw, Commit(w1, reported));
  }

  lemma RegisterRuns(s: Setup, w: World, h: Host, gw: Ip, ch: Choices)
    requires ValidSetup(s) && HistoryOk(w) && Undisturbed(ch)
    requires w.obj.Some? && w.obj.value.finalizers != [] && !w.obj.value.deleting && !Holds(s, w, h)
    requires !StatusMatch(w.obj.value.status, h, w.obj.value.spec, Some(gw), None)
    requires ParseCIDR(w.obj.value.spec.subnet).Some?
    ensures var p := AwaitIsRegistered(w.obj.value, gw, TableOf(s.options(h), w.obj.value.spec));
            var w' := RunToEnd(s, w, h, p, ch).world;
            Converged(s, w', h, gw) && RestKept(s, w, h, w')
  {
    var r, table := w.obj.value, TableOf(s.options(h), w.obj.value.spec);
    var route := Route(ParseCIDR(r.spec.subnet).value, gw, table);
    OneStep(s, w, h, AwaitIsRegistered(r, gw, table), ch, w, AwaitRegister(r, gw, route));
    RegisterThenReport(s, w, h, gw, route, ch);
  }

  /** A held, unchanged route is the desired one, and already reported. */
  lemma HeldIsConverged(s: Setup, net: Network, w: World, h: Host, gw: Ip)
    requires ValidSetup(s) && OwnPart(s, net, w, h) && w.obj.Some? && Holds(s, w, h)
    requires !w.obj.value.deleting && ParseCIDR(w.obj.value.spec.subnet).Some? && RealHop(net, h, gw)
    requires !Changed(w.obj.value.status, h, w.obj.value.spec, Dotted(gw))
    ensures Converged(s, w, h, gw)
  {
    var r := w.obj.value;
    HeldIsReported(s, net, w, h, gw, TableOf(s.options(h), r.spec));
    var m :| m in r.status && Reports(m, h, r.spec, Some(gw), None);
    assert Classified(s.options(h), net, m, HeldRoute(s, w, h));
    assert SameRequest(m.state, r.spec, Dotted(gw));
  }

  /** A converged node's stage is the registration check, which ends the round. */
  lemma ConvergedStage(s: Setup, w: World, h: Host, gw: Ip)
    requires ValidSetup(s) && Converged(s, w, h, gw)
    ensures var o, r := s.options(h), w.obj.value;
            Resolved(o, r, gw, false) == AwaitIsRegistered(r, gw, TableOf(o, r.spec))
            && Advance(o, AwaitIsRegistered(r, gw, TableOf(o, r.spec)), ABool(true)) == Done(Finished, None)
  { }

  /** Once converged, a round makes no API write and no kernel call, and changes nothing. */
  lemma ConvergedRound(s: Setup, w: World, h: Host, ch: Choices, gw: Ip)
    requires ValidSetup(s) && Converged(s, w, h, gw) && Promising(s, w, h, ch, gw)
    ensures Round(s, w, h, ch).world == w && OnlyReads(Round(s, w, h, ch).exchanges)
    ensures Round(s, w, h, ch).last == Done(Finished, None)
  {
    var p := AwaitIsRegistered(w.obj.value, gw, TableOf(s.options(h), w.obj.value.spec));
    SelectedRound(s, w, h, ch, gw);
    ConvergedStage(s, w, h, gw);
    LookupRead(s, w, h, p, ch);
  }

  lemma LookupRead(s: Setup, w: World, h: Host, p: Proc, ch: Choices)
    requires ValidSetup(s) && p.AwaitIsRegistered? && Holds(s, w, h)
    requires Advance(s.options(h), p, ABool(true)) == Done(Finished, None)
    ensures var r := RunToEnd(s, w, h, p, ch); r.world == w && OnlyReads(r.exchanges) && r.last == Done(Finished, None)
  {
    assert Answered(s, w, h, p, ch).1 == ABool(true);
    ReadStep(s, w, h, p, ch);
    assert RunToEnd(s, w, h, Done(Finished, None), ch) == Outcome(w, Done(Finished, None), []);
  }

  /** An unheld, unreported route is put in place and reported in one round. */
  lemma UnheldConverges(s: Setup, w: World, h: Host, ch: Choices, gw: Ip)
    requires ValidSetup(s) && Promising(s, w, h, ch, gw) && !Holds(s, w, h)
    requires !Changed(w.obj.value.status, h, w.obj.value.spec, Dotted(gw))
    requires !StatusMatch(w.obj.value.status, h, w.obj.value.spec, Some(gw), None)
    ensures var w' := Round(s, w, h, ch).world; Converged(s, w', h, gw) && RestKept(s, w, h, w')
  {
    var r, table := w.obj.value, TableOf(s.options(h), w.obj.value.spec);
    SelectedRound(s, w, h, ch, gw);
    if r.finalizers == [] {
      FinalizerStep(s, w, h, gw, table, ch);
      RegisterRuns(s, Commit(w, r.(finalizers := [FINALIZER])), h, gw, ch);
    } else {
      RegisterRuns(s, w, h, gw, ch);
    }
  }

  lemma UnchangedConverges(s: Setup, net: Network, w: World, h: Host, ch: Choices, gw: Ip)
    requires ValidSetup(s) && OwnPart(s, net, w, h) && Promising(s, w, h, ch, gw) && RealHop(net, h, gw)
    requires !Changed(w.obj.value.status, h, w.obj.value.spec, Dotted(gw))
    ensures var w' := Round(s, w, h, ch).world; Converged(s, w', h, gw) && RestKept(s, w, h, w')
  {
    if Holds(s, w, h) {
      HeldIsConverged(s, net, w, h, gw);
      ConvergedRound(s, w, h, ch, gw);
    } else {
      UnheldIsNotReported(s, net, w, h, gw);
      UnheldConverges(s, w, h, ch, gw);
    }
  }

  lemma ChangedWithdraws(s: Setup, net: Network, w: World, h: Host, ch: Choices, gw: Ip)
    requires ValidSetup(s) && OwnPart(s, net, w, h) && Promising(s, w, h, ch, gw)
    requires Changed(w.obj.value.status, h, w.obj.value.spec, Dotted(gw))
    ensures var w' := Round(s, w, h, ch).world;
            Withdrawn(s, w, h, w') && OwnPart(s, net, w', h) && w'.obj.Some?
            && !Listed(w'.obj.value.status, h) && w'.obj.value.spec == w.obj.value.spec && !w'.obj.value.deleting
  {
    var r := w.obj.value;
    assert Listed(r.status, h);
    SelectedRound(s, w, h, ch, gw);
    WithdrawRuns(s, w, h, true, ch);
    WithoutUnlists(r.status, h);
  }

  // ------------------------------------------------------------ the first round of all

  /** The world after a user has created the CR. */
  function Created(live: set<Host>, spec: Spec): World {
    Commit(FirstWorld(live), Resource(0, spec, false, [], []))
  }

  lemma FirstRoundConverges(s: Setup, live: set<Host>, spec: Spec, h: Host, ch: Choices, gw: Ip)
    requires ValidSetup(s) && Addable(s.options(h), spec, ch, gw)
    ensures AfterOutside(s, FirstWorld(live), Create(spec)) == Created(live, spec)
    ensures var w' := Round(s, Created(live, spec), h, ch).world;
            Converged(s, w', h, gw) && RestKept(s, Created(live, spec), h, w') && w'.obj.value.spec == spec
  {
    CommitHistory(FirstWorld(live), Resource(0, spec, false, [], []));
    UnheldConverges(s, Created(live, spec), h, ch, gw);
  }

  /** The run of those two turns. */
  lemma FirstTurns(s: Setup, live: set<Host>, spec: Spec, h: Host, ch: Choices, gw: Ip)
    returns (ws: seq<World>, turns: seq<Turn>)
    requires ValidSetup(s) && Addable(s.options(h), spec, ch, gw) && h in live
    ensures IsRoundRun(s, ws, turns) && turns == [Meanwhile(Create(spec)), RoundOf(h, ch)]
    ensures ws == [FirstWorld(live), Created(live, spec), Round(s, Created(live, spec), h, ch).world]
  {
    FirstRoundConverges(s, live, spec, h, ch, gw);
    assert IsRoundRun(s, [FirstWorld(live)], []);
    ws, turns := OneMoreTurn(s, [FirstWorld(live)], [], Meanwhile(Create(spec)));
    ws, turns := OneMoreTurn(s, ws, turns, RoundOf(h, ch));
  }

  // ------------------------------------------------------------ among turns of others

  /** A turn that suits the node: its own round can add, and the user and the node's own end keep
      out. The rounds of other nodes may be answered in any way. */
  ghost predicate CalmTurn(s: Setup, spec: Spec, t: Turn, h: Host, gw: Ip) {
    match t
    case RoundOf(g, ch) => g == h ==> Addable(s.options(h), spec, ch, gw)
    case Meanwhile(e) => LeavesAlone(e, h)
  }

  /** How many of the turns are rounds of `h`. */
  function RoundsBy(turns: seq<Turn>, h: Host): nat {
    if turns == [] then 0
    else
      var last := turns[|turns| - 1];
      RoundsBy(turns[..|turns| - 1], h) + if last.RoundOf? && last.h == h then 1 else 0
  }

  /** What is known after `n` own rounds: the second one always finds the entry unchanged. */
  ghost predicate Approaching(s: Setup, net: Network, w: World, h: Host, spec: Spec, gw: Ip, n: nat) {
    OwnPart(s, net, w, h) && h in w.live && w.obj.Some? && !w.obj.value.deleting && w.obj.value.spec == spec
    && (n >= 1 ==> !Changed(w.obj.value.status, h, spec, Dotted(gw)))
    && (n >= 2 ==> Converged(s, w, h, gw))
  }

  /** A converged node's part of the world is in order. */
  lemma ConvergedOwnPart(s: Setup, net: Network, w: World, h: Host, gw: Ip)
    requires ValidSetup(s) && Converged(s, w, h, gw)
    ensures OwnPart(s, net, w, h)
  {
    var r := w.obj.value;
    var m :| m in r.status && Reports(m, h, r.spec, Some(gw), None);
    forall e | e in r.status && e.host == h ensures Classified(s.options(h), net, e, HeldRoute(s, w, h)) {
      UniqueEntry(r.status, m, e);
      assert SameRequest(e.state, r.spec, Dotted(gw));
    }
  }

  lemma OwnRoundApproaches(s: Setup, net: Network, w: World, h: Host, spec: Spec, ch: Choices, gw: Ip, n: nat)
    requires ValidSetup(s) && Approaching(s, net, w, h, spec, gw, n) && RealHop(net, h, gw)
    requires Addable(s.options(h), spec, ch, gw)
    ensures Approaching(s, net, Round(s, w, h, ch).world, h, spec, gw, n + 1)
  {
    var w' := Round(s, w, h, ch).world;
    RunFrame(s, w, h, AwaitGet, ch);
    if n >= 2 {
      ConvergedRound(s, w, h, ch, gw);
    } else if Changed(w.obj.value.status, h, spec, Dotted(gw)) {
      ChangedWithdraws(s, net, w, h, ch, gw);
    } else {
      UnchangedConverges(s, net, w, h, ch, gw);
      ConvergedOwnPart(s, net, w', h, gw);
    }
  }

  lemma KeptConverged(s: Setup, w: World, h: Host, gw: Ip, w': World)
    requires Converged(s, w, h, gw) && Kept(s, w, h, w') && HistoryOk(w')
    ensures Converged(s, w', h, gw)
  {
    var r := w.obj.value;
    var m :| m in r.status && Reports(m, h, r.spec, Some(gw), None);
    assert ListedIn(w, h) && m in w'.obj.value.status;
  }

  lemma KeptApproaching(s: Setup, net: Network, w: World, h: Host, spec: Spec, gw: Ip, n: nat, w': World)
    requires Approaching(s, net, w, h, spec, gw, n) && Kept(s, w, h, w') && HistoryOk(w')
    ensures Approaching(s, net, w', h, spec, gw, n)
  {
    KeptOwnPart(s, net, w, h, w');
    if n >= 2 {
      KeptConverged(s, w, h, gw, w');
    }
  }

  lemma TurnApproaches(s: Setup, net: Network, w: World, t: Turn, w': World, h: Host, spec: Spec, gw: Ip, n: nat)
    requires ValidSetup(s) && Approaching(s, net, w, h, spec, gw, n) && RealHop(net, h, gw)
    requires TurnsTo(s, w, t, w') && CalmTurn(s, spec, t, h, gw)
    ensures Approaching(s, net, w', h, spec, gw, n + if t.RoundOf? && t.h == h then 1 else 0)
  {
    if t.RoundOf? && t.h == h {
      OwnRoundApproaches(s, net, w, h, spec, t.ch, gw, n);
    } else {
      TurnHistory(s, w, t, w');
      match t {
        case RoundOf(g, ch) => RoundKeepsOthers(s, w, g, ch, h);
        case Meanwhile(e) => OutsideKeepsOthers(s, w, e, h);
      }
      KeptApproaching(s, net, w, h, spec, gw, n, w');
    }
  }

  ghost predicate CalmTurns(s: Setup, spec: Spec, turns: seq<Turn>, h: Host, gw: Ip) {
    forall k :: 0 <= k < |turns| ==> CalmTurn(s, spec, turns[k], h, gw)
  }

  lemma {:induction false} ChainApproaches(s: Setup, net: Network, ws: seq<World>, turns: seq<Turn>, h: Host, gw: Ip,
                                           spec: Spec, n: nat, i: nat)
    requires ValidSetup(s) && IsTurnChain(s, ws, turns) && i < |ws| && CalmTurns(s, spec, turns, h, gw)
    requires Approaching(s, net, ws[0], h, spec, gw, n) && RealHop(net, h, gw)
    ensures Approaching(s, net, ws[i], h, spec, gw, n + RoundsBy(turns[..i], h))
  {
    if i > 0 {
      ChainApproaches(s, net, ws, turns, h, gw, spec, n, i - 1);
      TurnAt(s, ws, turns, i - 1);
      assert turns[..i][..i - 1] == turns[..i - 1];
      TurnApproaches(s, net, ws[i - 1], turns[i - 1], ws[i], h, spec, gw, n + RoundsBy(turns[..i - 1], h));
    }
  }

  /** Convergence: from any state in which the node's own part is in order, two undisturbed rounds
      of a selected node reach the desired route and a matching status. Rounds of other nodes,
      with any answers, may come before, between and after them, nodes may vanish, and the
      node cleaner may write. */
  lemma TwoRoundsConverge(s: Setup, net: Network, ws: seq<World>, turns: seq<Turn>, h: Host, gw: Ip)
    requires ValidSetup(s) && IsTurnChain(s, ws, turns) && RealHop(net, h, gw)
    requires OwnPart(s, net, ws[0], h) && h in ws[0].live && ws[0].obj.Some? && !ws[0].obj.value.deleting
    requires CalmTurns(s, ws[0].obj.value.spec, turns, h, gw) && RoundsBy(turns, h) >= 2
    ensures Converged(s, ws[|turns|], h, gw) && ws[|turns|].obj.value.spec == ws[0].obj.value.spec
  {
    ChainApproaches(s, net, ws, turns, h, gw, ws[0].obj.value.spec, 0, |turns|);
    assert turns[..|turns|] == turns;
  }

  /** And it stays there: among any such turns, every later round of the node makes no API write
      and no kernel call and changes nothing. */
  lemma ConvergedIsStable(s: Setup, net: Network, ws: seq<World>, turns: seq<Turn>, h: Host, gw: Ip, i: nat)
    requires ValidSetup(s) && IsTurnChain(s, ws, turns) && RealHop(net, h, gw) && i < |ws|
    requires Converged(s, ws[0], h, gw) && h in ws[0].live
    requires CalmTurns(s, ws[0].obj.value.spec, turns, h, gw)
    ensures Converged(s, ws[i], h, gw)
    ensures i < |turns| && turns[i].RoundOf? && turns[i].h == h ==>
              ws[i + 1] == ws[i] && OnlyReads(Round(s, ws[i], h, turns[i].ch).exchanges)
              && Round(s, ws[i], h, turns[i].ch).last == Done(Finished, None)
  {
    var spec := ws[0].obj.value.spec;
    ConvergedOwnPart(s, net, ws[0], h, gw);
    ChainApproaches(s, net, ws, turns, h, gw, spec, 2, i);
    if i < |turns| && turns[i].RoundOf? && turns[i].h == h {
      TurnAt(s, ws, turns, i);
      ConvergedRound(s, ws[i], h, turns[i].ch, gw);
    }
  }

  /** All together: once every node of a group has had two undisturbed rounds, in any order, all
      of them are converged, each on its own gateway. */
  lemma AllConverge(s: Setup, net: Network, ws: seq<World>, turns: seq<Turn>, gws: map<Host, Ip>)
    requires ValidSetup(s) && IsTurnChain(s, ws, turns) && ws[0].obj.Some? && !ws[0].obj.value.deleting
    requires forall h :: h in gws ==> h in ws[0].live && OwnPart(s, net, ws[0], h) && RealHop(net, h, gws[h])
    requires forall h :: h in gws ==>
               CalmTurns(s, ws[0].obj.value.spec, turns, h, gws[h]) && RoundsBy(turns, h) >= 2
    ensures forall h :: h in gws ==> Converged(s, ws[|turns|], h, gws[h])
  {
    forall h | h in gws ensures Converged(s, ws[|turns|], h, gws[h]) {
      TwoRoundsConverge(s, net, ws, turns, h, gws[h]);
    }
  }

  /** The same from every state that a run with faithful rounds of these nodes reaches. */
  lemma ReachedStatesConverge(s: Setup, net: Network, trust: Trust, past: seq<World>, done: seq<Turn>,
                              ws: seq<World>, turns: seq<Turn>, gws: map<Host, Ip>)
    requires ValidSetup(s) && IsTurnChain(s, ws, turns) && ws[0].obj.Some? && !ws[0].obj.value.deleting
    requires forall h :: h in gws ==> FallbackSound(s, net, h) && FaithfulFor(s, net, trust, past, done, h)
    requires Enough(trust) && IsRoundRun(s, past, done) && past[|done|] == ws[0]
    requires forall h :: h in gws ==> h in ws[0].live && RealHop(net, h, gws[h])
    requires forall h :: h in gws ==>
               CalmTurns(s, ws[0].obj.value.spec, turns, h, gws[h]) && RoundsBy(turns, h) >= 2
    ensures forall h :: h in gws ==> Converged(s, ws[|turns|], h, gws[h])
  {
    forall h | h in gws ensures Converged(s, ws[|turns|], h, gws[h]) {
      RunsKeepOwnPart(s, net, trust, past, done, h, |done|);
      TwoRoundsConverge(s, net, ws, turns, h, gws[h]);
    }
  }
}
