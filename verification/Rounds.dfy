/** The protocol round by round: rounds of different nodes, user actions, label changes and the
    node cleaner interleave; API writes and kernel calls may fail. */
module Rounds {
  import opened Ipv4
  import opened Optional
  import opened StaticRoutes
  import opened Reconcile
  import opened Cluster
  import opened NodeCleaner
  import opened FineSteps
  import opened Neighbours

  datatype Turn = RoundOf(h: Host, ch: Choices) | Meanwhile(e: Outside)

  predicate TurnEnabled(s: Setup, w: World, t: Turn) {
    match t
    case RoundOf(h, _) => h in w.live
    case Meanwhile(e) => OutsideEnabled(s, w, e)
  }

  ghost function AfterTurn(s: Setup, w: World, t: Turn): World
    requires TurnEnabled(s, w, t)
  {
    match t
    case RoundOf(h, ch) => Round(s, w, h, ch).world
    case Meanwhile(e) => AfterOutside(s, w, e)
  }

  ghost predicate TurnsTo(s: Setup, w: World, t: Turn, w': World) {
    TurnEnabled(s, w, t) && w' == AfterTurn(s, w, t)
  }

  /** Turns from any world on; the calls of the rounds may be answered in any way. */
  ghost predicate IsTurnChain(s: Setup, ws: seq<World>, turns: seq<Turn>) {
    |ws| == |turns| + 1 && forall i :: 0 <= i < |turns| ==> TurnsTo(s, ws[i], turns[i], ws[i + 1])
  }

  ghost predicate IsRoundRun(s: Setup, ws: seq<World>, turns: seq<Turn>) {
    IsTurnChain(s, ws, turns) && Initial(ws[0])
  }

  lemma TurnAt(s: Setup, ws: seq<World>, turns: seq<Turn>, i: nat)
    requires IsTurnChain(s, ws, turns) && i < |turns|
    ensures TurnsTo(s, ws[i], turns[i], ws[i + 1])
  { }

  /** A run and one turn more. */
  lemma OneMoreTurn(s: Setup, ws: seq<World>, turns: seq<Turn>, t: Turn) returns (us: seq<World>, ts: seq<Turn>)
    requires IsRoundRun(s, ws, turns) && TurnEnabled(s, ws[|turns|], t)
    ensures IsRoundRun(s, us, ts)
    ensures us == ws + [AfterTurn(s, ws[|turns|], t)] && ts == turns + [t]
  {
    us, ts := ws + [AfterTurn(s, ws[|turns|], t)], turns + [t];
    forall i | 0 <= i < |ts| ensures TurnsTo(s, us[i], ts[i], us[i + 1]) {
      if i < |turns| {
        TurnAt(s, ws, turns, i);
      }
    }
  }

  lemma TurnHistory(s: Setup, w: World, t: Turn, w': World)
    requires ValidSetup(s) && HistoryOk(w) && TurnsTo(s, w, t, w')
    ensures HistoryOk(w')
  {
    match t
    case RoundOf(h, ch) => StagesKeepHistory(s, w, h, AwaitGet, ch);
    case Meanwhile(e) => OutsideStore(s, w, e);
  }

  // ------------------------------------------------------------ the one write that matters

  /** The one write a round relies on: if its register call succeeds while the CR does not shield
      the node, the round has read the current version and its status report is not refused.
      Every other call may fail, and every other read may be of an older version. */
  ghost predicate Promise(s: Setup, w: World, h: Host, p: Proc, ch: Choices)
    decreases Rank(p)
  {
    !p.Done? ==>
      var (w', a) := Answered(s, w, h, p, ch);
      PromisedCall(w, h, p, a, ch) && Promise(s, w', h, Advance(s.options(h), p, a), ch)
  }

  ghost predicate PromisedCall(w: World, h: Host, p: Proc, a: Answer, ch: Choices) {
    p.AwaitRegister? && a.AReply? && a.reply.Ok? && !Shielded(w, h) ==> WillReport(w, p, ch)
  }

  /** A report from here on is accepted. */
  predicate WillReport(w: World, p: Proc, ch: Choices) {
    IsCurrent(w, p) && ch(REPORT).fail.None?
  }

  ghost predicate PromisedTurn(s: Setup, w: World, t: Turn) {
    t.RoundOf? ==> Promise(s, w, t.h, AwaitGet, t.ch)
  }

  // ------------------------------------------------------------ the invariant

  ghost predicate Guarded(s: Setup, w: World) {
    HistoryOk(w) && forall h :: h in w.live && Holds(s, w, h) ==> Shielded(w, h)
  }

  /** Between the calls of a round of `h` it may be unshielded only between its registration and
      its report. */
  ghost predicate MidRound(s: Setup, w: World, h: Host, p: Proc, ch: Choices) {
    Steady(s, w, h, p) && OwnShield(s, w, h, p, ch)
  }

  ghost predicate OwnShield(s: Setup, w: World, h: Host, p: Proc, ch: Choices) {
    if p.AwaitRegister? then !Holds(s, w, h)
    else Holds(s, w, h) ==>
      Shielded(w, h) || (p.AwaitReport? && WillReport(w, p, ch) && w.obj.value.finalizers != [])
  }

  lemma FinishShield(s: Setup, w: World, h: Host, report: bool, r: Resource, gateway: Option<Ip>, res: Result,
                     err: Option<string>, ch: Choices)
    requires s.options(h).host == h
    requires Holds(s, w, h) && !Shielded(w, h) ==>
               report && w.obj.Some? && r.version == w.obj.value.version && r.status == w.obj.value.status
               && w.obj.value.finalizers != [] && ch(REPORT).fail.None?
    ensures OwnShield(s, w, h, Finish(s.options(h), report, r, gateway, res, err), ch)
  {
    if StatusMatch(r.status, h, r.spec, gateway, StatusError(res, err)) {
      assert Listed(r.status, h);
    }
  }

  lemma SelectShield(s: Setup, w: World, h: Host, r: Resource, noLonger: bool, ch: Choices)
    requires s.options(h).host == h && (Holds(s, w, h) ==> Shielded(w, h))
    ensures OwnShield(s, w, h, AfterSelect(s.options(h), r, noLonger), ch)
  {
    FinishShield(s, w, h, !noLonger, r, Some(ZERO_IP), OverlapsProtected, None, ch);
    FinishShield(s, w, h, !noLonger, r, None, InvalidGatewayError, None, ch);
  }

  /** The own shield across the calls that only read. */
  lemma ReadShield(s: Setup, w: World, h: Host, p: Proc, a: Answer, ch: Choices)
    requires s.options(h).host == h && (Holds(s, w, h) ==> Shielded(w, h))
    requires (p.AwaitGet? || p.AwaitList? || p.AwaitGw?) && Fits(Pending(s.options(h), p), a)
    ensures OwnShield(s, w, h, Advance(s.options(h), p, a), ch)
  {
    match p
    case AwaitGet =>
      if a.AObject? {
        SelectShield(s, w, h, a.resource, false, ch);
        FinishShield(s, w, h, true, a.resource, Some(ZERO_IP), WrongSelectorErr, None, ch);
      }
    case AwaitList(r) =>
      SelectShield(s, w, h, r, true, ch);
      SelectShield(s, w, h, r, false, ch);
      if a.AError? { FinishShield(s, w, h, true, r, Some(ZERO_IP), NodeGetError, Some(a.text), ch); }
    case AwaitGw(r, noLonger) => GatewayShield(s, w, h, r, noLonger, a, ch);
  }

  lemma GatewayShield(s: Setup, w: World, h: Host, r: Resource, noLonger: bool, a: Answer, ch: Choices)
    requires s.options(h).host == h && (Holds(s, w, h) ==> Shielded(w, h)) && (a.AHop? || a.AError?)
    ensures OwnShield(s, w, h, GatewayAnswered(s.options(h), r, noLonger, a), ch)
  {
    if a.AError? { FinishShield(s, w, h, !noLonger, r, None, RouteGetError, Some(a.text), ch); }
    else if r.spec.gateway.Dotted? {
      FinishShield(s, w, h, !noLonger, r, Some(r.spec.gateway.ip), GatewayNotDirectlyRoutableError, None, ch);
      BranchShield(s, w, h, r, r.spec.gateway.ip, noLonger, ch);
    } else {
      FinishShield(s, w, h, !noLonger, r, None, NoResult, None, ch);
      if a.hop.Some? { BranchShield(s, w, h, r, a.hop.value, noLonger, ch); }
    }
  }

  lemma BranchShield(s: Setup, w: World, h: Host, r: Resource, gw: Ip, noLonger: bool, ch: Choices)
    requires s.options(h).host == h && (Holds(s, w, h) ==> Shielded(w, h))
    ensures OwnShield(s, w, h, Resolved(s.options(h), r, gw, noLonger), ch)
  { }

  /** The own shield across the write of the finalizer and the look-up. */
  lemma AddShield(s: Setup, w: World, h: Host, p: Proc, ch: Choices)
    requires ValidSetup(s) && MidRound(s, w, h, p, ch) && (p.AwaitFinalizer? || p.AwaitIsRegistered?)
    ensures var (w', a) := Answered(s, w, h, p, ch); OwnShield(s, w', h, Advance(s.options(h), p, a), ch)
  {
    var (w', a) := Answered(s, w, h, p, ch);
    match p
    case AwaitFinalizer(r, gw, _) =>
      if a.AError? {
        FinishShield(s, w', h, true, r, Some(gw), SetFinalizerError, Some(a.text), ch);
      } else {
        CurrentBase(s, w, h, p);
      }
    case AwaitIsRegistered(r, gw, _) =>
      FinishShield(s, w', h, true, r, Some(gw), Finished, None, ch);
      FinishShield(s, w', h, true, r, Some(gw), ParseSubnetError, None, ch);
  }

  /** The own shield across the registration, if the promise is kept, and across the report. */
  lemma RegisterShield(s: Setup, w: World, h: Host, p: Proc, ch: Choices)
    requires ValidSetup(s) && MidRound(s, w, h, p, ch) && p.AwaitRegister?
    requires PromisedCall(w, h, p, Answered(s, w, h, p, ch).1, ch)
    ensures var (w', a) := Answered(s, w, h, p, ch); OwnShield(s, w', h, Advance(s.options(h), p, a), ch)
  {
    var (w', a) := Answered(s, w, h, p, ch);
    if IsCurrent(w, p) { CurrentBase(s, w, h, p); }
    FinishShield(s, w', h, true, p.w, Some(p.gw), Finished, None, ch);
    if a.reply.Failed? { FinishShield(s, w', h, true, p.w, Some(p.gw), RegisterRouteError, Some(a.reply.text), ch); }
  }

  lemma ReportShield(s: Setup, w: World, h: Host, p: Proc, ch: Choices)
    requires ValidSetup(s) && MidRound(s, w, h, p, ch) && p.AwaitReport?
    ensures var (w', a) := Answered(s, w, h, p, ch); OwnShield(s, w', h, Advance(s.options(h), p, a), ch)
  {
    if IsCurrent(w, p) { CurrentBase(s, w, h, p); }
  }

  lemma WithdrawShield(s: Setup, w: World, h: Host, p: Proc, ch: Choices)
    requires ValidSetup(s) && MidRound(s, w, h, p, ch) && (p.AwaitDeregister? || p.AwaitDelStatus? || p.AwaitClear?)
    ensures var (w', a) := Answered(s, w, h, p, ch); OwnShield(s, w', h, Advance(s.options(h), p, a), ch)
  {
    if IsCurrent(w, p) { CurrentBase(s, w, h, p); }
  }

  lemma OwnShieldStep(s: Setup, w: World, h: Host, p: Proc, ch: Choices)
    requires ValidSetup(s) && MidRound(s, w, h, p, ch) && !p.Done?
    requires PromisedCall(w, h, p, Answered(s, w, h, p, ch).1, ch)
    ensures var (w', a) := Answered(s, w, h, p, ch); OwnShield(s, w', h, Advance(s.options(h), p, a), ch)
  {
    if p.AwaitGet? || p.AwaitList? || p.AwaitGw? { ReadShield(s, w, h, p, Answered(s, w, h, p, ch).1, ch); }
    else if p.AwaitDeregister? || p.AwaitDelStatus? || p.AwaitClear? { WithdrawShield(s, w, h, p, ch); }
    else if p.AwaitRegister? { RegisterShield(s, w, h, p, ch); }
    else if p.AwaitReport? { ReportShield(s, w, h, p, ch); }
    else { AddShield(s, w, h, p, ch); }
  }

  lemma RoundStepKeeps(s: Setup, w: World, h: Host, p: Proc, ch: Choices)
    requires ValidSetup(s) && MidRound(s, w, h, p, ch) && !p.Done?
    requires PromisedCall(w, h, p, Answered(s, w, h, p, ch).1, ch)
    ensures var (w', a) := Answered(s, w, h, p, ch); MidRound(s, w', h, Advance(s.options(h), p, a), ch)
  {
    SteadyStep(s, w, h, p, ch);
    OwnShieldStep(s, w, h, p, ch);
  }

  /** A new registration that cannot be reported leaves the route without its shield. */
  lemma BrokenPromise(s: Setup, w: World, h: Host, p: Proc, ch: Choices)
    requires ValidSetup(s) && MidRound(s, w, h, p, ch) && !p.Done?
    requires !PromisedCall(w, h, p, Answered(s, w, h, p, ch).1, ch)
    ensures var w' := RunToEnd(s, w, h, p, ch).world; Holds(s, w', h) && !Shielded(w', h)
  {
    var o := s.options(h);
    var (w1, a) := Answered(s, w, h, p, ch);
    var q := Advance(o, p, a);
    assert q == Finish(o, true, p.w, Some(p.gw), Finished, None) && !p.w.deleting;
    assert w1 == w.(managed := w1.managed) && Holds(s, w1, h);
    if q.AwaitReport? {
      UnreportedEnds(s, w1, h, q, ch);
    }
  }

  lemma UnreportedEnds(s: Setup, w: World, h: Host, p: Proc, ch: Choices)
    requires p.AwaitReport? && !p.w.deleting && !WillReport(w, p, ch)
    ensures RunToEnd(s, w, h, p, ch).world == w
  {
    var (w', b) := Answered(s, w, h, p, ch);
    assert w' == w && b.AError? && Advance(s.options(h), p, b).Done?;
  }

  /** A round ends with its node shielded iff it keeps the promise. */
  lemma {:induction false} RoundDecides(s: Setup, w: World, h: Host, p: Proc, ch: Choices)
    requires ValidSetup(s) && MidRound(s, w, h, p, ch)
    ensures var w' := RunToEnd(s, w, h, p, ch).world;
            HistoryOk(w') && (Promise(s, w, h, p, ch) <==> (Holds(s, w', h) ==> Shielded(w', h)))
    decreases Rank(p)
  {
    StagesKeepHistory(s, w, h, p, ch);
    if !p.Done? {
      var (w', a) := Answered(s, w, h, p, ch);
      if PromisedCall(w, h, p, a, ch) {
        RoundStepKeeps(s, w, h, p, ch);
        RoundDecides(s, w', h, Advance(s.options(h), p, a), ch);
      } else {
        BrokenPromise(s, w, h, p, ch);
      }
    }
  }

  /** The exact condition of one round: in a guarded world it keeps every live route guarded iff it
      does not register a route that the CR does not shield and then fail to report it, because
      it has read an older version or the report is refused. */
  lemma RoundGuardsExactly(s: Setup, w: World, h: Host, ch: Choices)
    requires ValidSetup(s) && Guarded(s, w) && h in w.live
    ensures Guarded(s, Round(s, w, h, ch).world) <==> Promise(s, w, h, AwaitGet, ch)
  {
    var w' := Round(s, w, h, ch).world;
    RoundDecides(s, w, h, AwaitGet, ch);
    RunFrame(s, w, h, AwaitGet, ch);
    forall g | g in w'.live && g != h && Holds(s, w', g) ensures Shielded(w', g) {
      RoundKeepsOthers(s, w, h, ch, g);
      assert Shielded(w, g);
      KeptListed(s, w, g, w');
    }
  }

  lemma OutsideKeeps(s: Setup, w: World, e: Outside)
    requires Guarded(s, w) && OutsideEnabled(s, w, e)
    ensures Guarded(s, AfterOutside(s, w, e))
  {
    var w' := AfterOutside(s, w, e);
    OutsideStore(s, w, e);
    forall g | g in w'.live && Holds(s, w', g) ensures Shielded(w', g) {
      OutsideHolds(s, w, e, g);
      assert Shielded(w, g);
      if e.CleanNode? && w.obj.value.version == e.seen {
        var t := w.obj.value.status;
        CleanedMentionsNoOne(t, e.host);
        OthersKept(t, Cut(t, e.host), e.host, g);
      }
    }
  }

  lemma TurnGuardsExactly(s: Setup, w: World, t: Turn, w': World)
    requires ValidSetup(s) && Guarded(s, w) && TurnsTo(s, w, t, w')
    ensures Guarded(s, w') <==> PromisedTurn(s, w, t)
  {
    match t
    case RoundOf(h, ch) => RoundGuardsExactly(s, w, h, ch);
    case Meanwhile(e) => OutsideKeeps(s, w, e);
  }

  /** In every reachable state, if a live node's manager holds the CR's route, then the CR
      exists, has a finalizer, and lists that node in its status. */
  lemma {:induction false} HoldersAreShielded(s: Setup, ws: seq<World>, turns: seq<Turn>, i: nat)
    requires ValidSetup(s) && IsRoundRun(s, ws, turns) && i < |ws|
    requires forall k :: 0 <= k < i ==> PromisedTurn(s, ws[k], turns[k])
    ensures Guarded(s, ws[i])
  {
    if i > 0 {
      HoldersAreShielded(s, ws, turns, i - 1);
      TurnAt(s, ws, turns, i - 1);
      TurnGuardsExactly(s, ws[i - 1], turns[i - 1], ws[i]);
    }
  }

  /** The exact condition of whole runs: with any answers to any calls, every state is guarded iff
      every round keeps the promise. */
  lemma GuardedRunsExactly(s: Setup, ws: seq<World>, turns: seq<Turn>)
    requires ValidSetup(s) && IsRoundRun(s, ws, turns)
    ensures (forall i :: 0 <= i < |ws| ==> Guarded(s, ws[i])) <==>
            (forall k :: 0 <= k < |turns| ==> PromisedTurn(s, ws[k], turns[k]))
  {
    if forall i :: 0 <= i < |ws| ==> Guarded(s, ws[i]) {
      forall k | 0 <= k < |turns| ensures PromisedTurn(s, ws[k], turns[k]) {
        TurnAt(s, ws, turns, k);
        TurnGuardsExactly(s, ws[k], turns[k], ws[k + 1]);
      }
    } else if forall k :: 0 <= k < |turns| ==> PromisedTurn(s, ws[k], turns[k]) {
      forall i | 0 <= i < |ws| ensures Guarded(s, ws[i]) {
        HoldersAreShielded(s, ws, turns, i);
      }
    }
  }

  /** Once the CR is gone, no live manager holds its route. */
  lemma GoneMeansReleased(s: Setup, ws: seq<World>, turns: seq<Turn>, i: nat, h: Host)
    requires ValidSetup(s) && IsRoundRun(s, ws, turns) && i < |ws| && ws[i].obj.None? && h in ws[i].live
    requires forall k :: 0 <= k < i ==> PromisedTurn(s, ws[k], turns[k])
    ensures !Holds(s, ws[i], h)
  {
    HoldersAreShielded(s, ws, turns, i);
  }
}
