/** How a deletion goes over whole chains of turns: when the CR is gone, when it is stuck with an
    empty status, and what brings it there. The rounds may read old versions and any of their
    calls may fail. */
module Deletion {
  import opened Ipv4
  import opened Optional
  import opened StaticRoutes
  import opened Reconcile
  import opened Cluster
  import opened NodeCleaner
  import opened FineSteps
  import opened Neighbours
  import opened Rounds
  import opened Truth
  import opened Convergence
  import opened Draining

  // ------------------------------------------------------------ what a turn can do

  /** The node cleaner writes, with the current version in hand. */
  predicate Cleans(w: World, t: Turn) {
    t.Meanwhile? && t.e.CleanNode? && w.obj.Some? && w.obj.value.version == t.e.seen
  }

  /** The turn takes the entry of `g` out: by a round of `g` itself, or by the node cleaner. */
  ghost predicate TakesOut(s: Setup, w: World, t: Turn, g: Host) {
    match t
    case RoundOf(h, ch) => h == g && TakesItselfOut(s, w, h, ch)
    case Meanwhile(e) => Cleans(w, t) && e.host == g
  }

  /** The last entry goes by its own node's round, and the finalizers with it. */
  ghost predicate Ends(s: Setup, w: World, t: Turn) {
    t.RoundOf? && Empties(s, w, t.h, t.ch) && t.ch(CLEAR).fail.None?
  }

  /** The last entry goes by its own node's round, whose finalizer update is then refused. */
  ghost predicate Strands(s: Setup, w: World, t: Turn) {
    t.RoundOf? && Empties(s, w, t.h, t.ch) && t.ch(CLEAR).fail.Some?
  }

  /** The node cleaner takes out the last entry. */
  ghost predicate CleansLast(w: World, t: Turn) {
    Cleans(w, t) && |w.obj.value.status| == 1 && Listed(w.obj.value.status, t.e.host)
  }

  /** The user deletes a CR that has a finalizer but no entry. */
  predicate DeletesEmpty(w: World, t: Turn) {
    t.Meanwhile? && t.e.Delete? && w.obj.Some? && !w.obj.value.deleting
    && w.obj.value.finalizers != [] && w.obj.value.status == []
  }

  ghost predicate RelistsTurn(s: Setup, w: World, t: Turn) {
    t.RoundOf? && Relists(s, w, t.h, t.ch)
  }

  /** What one turn does to a CR in deletion. */
  ghost predicate TurnFate(s: Setup, w: World, t: Turn, w': World)
    requires w.obj.Some?
  {
    InDeletion(w') && (w'.obj.None? <==> Ends(s, w, t))
    && (Stuck(w') <==> if Stuck(w) then !RelistsTurn(s, w, t) else Strands(s, w, t) || CleansLast(w, t))
    && (w'.obj.Some? && !RelistsTurn(s, w, t) ==>
          forall g :: ListedIn(w', g) <==> ListedIn(w, g) && !TakesOut(s, w, t, g))
  }

  lemma CleanerFate(s: Setup, w: World, h: Host, seen: nat)
    requires InDeletion(w) && w.obj.Some? && OutsideEnabled(s, w, CleanNode(h, seen))
    ensures TurnFate(s, w, Meanwhile(CleanNode(h, seen)), AfterOutside(s, w, CleanNode(h, seen)))
  {
    OutsideStore(s, w, CleanNode(h, seen));
    var t := w.obj.value.status;
    CutIsRemoval(t, h);
    WithoutShrinks(t, h);
    forall g ensures Listed(Cut(t, h), g) <==> Listed(t, g) && g != h {
      WithoutListed(t, h, g);
    }
  }

  lemma AnyTurnFate(s: Setup, w: World, t: Turn, w': World)
    requires ValidSetup(s) && InDeletion(w) && w.obj.Some? && TurnsTo(s, w, t, w')
    ensures TurnFate(s, w, t, w')
  {
    match t
    case RoundOf(h, ch) => AnyRoundFate(s, w, h, ch);
    case Meanwhile(e) =>
      if e.CleanNode? {
        CleanerFate(s, w, e.host, e.seen);
      } else {
        OutsideStore(s, w, e);
      }
  }

  // ------------------------------------------------------------ when the CR is gone

  ghost predicate NoCreate(turns: seq<Turn>) {
    forall k :: 0 <= k < |turns| ==> !(turns[k].Meanwhile? && turns[k].e.Create?)
  }

  lemma GoneStays(s: Setup, w: World, t: Turn, w': World)
    requires ValidSetup(s) && HistoryOk(w) && w.obj.None? && TurnsTo(s, w, t, w')
    requires !(t.Meanwhile? && t.e.Create?)
    ensures w'.obj.None?
  {
    if t.RoundOf? {
      RoundKeepsOthers(s, w, t.h, t.ch, Another(t.h));
    }
  }

  /** Some other host. */
  function Another(h: Host): (g: Host)
    ensures g != h
  {
    h + "'"
  }

  lemma TurnInDeletion(s: Setup, w: World, t: Turn, w': World)
    requires ValidSetup(s) && InDeletion(w) && TurnsTo(s, w, t, w') && !(t.Meanwhile? && t.e.Create?)
    ensures InDeletion(w') && (w'.obj.None? <==> w.obj.None? || Ends(s, w, t))
  {
    TurnHistory(s, w, t, w');
    if w.obj.None? {
      GoneStays(s, w, t, w');
    } else {
      AnyTurnFate(s, w, t, w');
    }
  }

  ghost predicate EndedBefore(s: Setup, ws: seq<World>, turns: seq<Turn>, i: nat)
    requires i <= |turns| <= |ws|
  {
    exists k :: 0 <= k < i && Ends(s, ws[k], turns[k])
  }

  lemma GoneStep(s: Setup, ws: seq<World>, turns: seq<Turn>, i: nat)
    requires ValidSetup(s) && IsTurnChain(s, ws, turns) && NoCreate(turns) && i < |turns|
    requires InDeletion(ws[i]) && (ws[i].obj.None? <==> EndedBefore(s, ws, turns, i))
    ensures InDeletion(ws[i + 1]) && (ws[i + 1].obj.None? <==> EndedBefore(s, ws, turns, i + 1))
  {
    TurnAt(s, ws, turns, i);
    TurnInDeletion(s, ws[i], turns[i], ws[i + 1]);
    if Ends(s, ws[i], turns[i]) {
      assert 0 <= i < i + 1;
    }
  }

  /** The exact condition: among any turns (rounds with any reads and answers, vanishing nodes, edits,
      the node cleaner) a CR in deletion is gone iff the last entry was taken out by a round of
      its own node whose finalizer update was accepted. */
  lemma {:induction false} GoneExactlyByARound(s: Setup, ws: seq<World>, turns: seq<Turn>, i: nat)
    requires ValidSetup(s) && IsTurnChain(s, ws, turns) && NoCreate(turns) && i <= |turns|
    requires InDeletion(ws[0]) && ws[0].obj.Some?
    ensures InDeletion(ws[i]) && (ws[i].obj.None? <==> EndedBefore(s, ws, turns, i))
  {
    if i > 0 {
      GoneExactlyByARound(s, ws, turns, i - 1);
      GoneStep(s, ws, turns, i - 1);
    }
  }

  // ------------------------------------------------------------ when it is stuck

  /** The three ways into the stuck state. */
  ghost predicate StuckCause(s: Setup, w: World, t: Turn) {
    (Drainable(w) && (Strands(s, w, t) || CleansLast(w, t))) || DeletesEmpty(w, t)
  }

  /** A round neither starts nor cancels a deletion. */
  lemma RoundKeepsPlan(s: Setup, w: World, h: Host, ch: Choices)
    requires ValidSetup(s) && HistoryOk(w) && Round(s, w, h, ch).world.obj.Some?
    ensures w.obj.Some? && Round(s, w, h, ch).world.obj.value.deleting == w.obj.value.deleting
  {
    RoundKeepsOthers(s, w, h, ch, Another(h));
  }

  lemma StuckTurn(s: Setup, w: World, t: Turn, w': World)
    requires ValidSetup(s) && HistoryOk(w) && TurnsTo(s, w, t, w')
    ensures HistoryOk(w')
    ensures Stuck(w') <==> if Stuck(w) then !RelistsTurn(s, w, t) else StuckCause(s, w, t)
  {
    TurnHistory(s, w, t, w');
    if w.obj.Some? && w.obj.value.deleting {
      AnyTurnFate(s, w, t, w');
    } else if t.RoundOf? && w'.obj.Some? {
      RoundKeepsPlan(s, w, t.h, t.ch);
    }
  }

  /** The CR got stuck in turn `k`, and no round has relisted its node since. */
  ghost predicate StuckSince(s: Setup, ws: seq<World>, turns: seq<Turn>, k: nat, i: nat)
    requires k < i <= |turns| <= |ws|
  {
    StuckCause(s, ws[k], turns[k]) && forall j :: k < j < i ==> !RelistsTurn(s, ws[j], turns[j])
  }

  ghost predicate StuckBefore(s: Setup, ws: seq<World>, turns: seq<Turn>, i: nat)
    requires i <= |turns| <= |ws|
  {
    exists k: nat :: k < i && StuckSince(s, ws, turns, k, i)
  }

  lemma StuckBeforeStep(s: Setup, ws: seq<World>, turns: seq<Turn>, i: nat)
    requires i < |turns| <= |ws|
    ensures StuckBefore(s, ws, turns, i + 1) <==>
            (StuckBefore(s, ws, turns, i) && !RelistsTurn(s, ws[i], turns[i])) || StuckCause(s, ws[i], turns[i])
  {
    var n := i + 1;
    if StuckBefore(s, ws, turns, n) {
      var k: nat :| k < n && StuckSince(s, ws, turns, k, n);
      assert k < i ==> StuckSince(s, ws, turns, k, i);
    }
    if StuckBefore(s, ws, turns, i) && !RelistsTurn(s, ws[i], turns[i]) {
      var k: nat :| k < i && StuckSince(s, ws, turns, k, i);
      assert StuckSince(s, ws, turns, k, n);
    }
    if StuckCause(s, ws[i], turns[i]) {
      assert StuckSince(s, ws, turns, i, n);
    }
  }

  /** The exact condition, over all chains of turns: a CR in deletion is stuck with an empty status
      iff its last entry was taken out by a round whose finalizer update was refused, or by the
      node cleaner, or the deletion was requested when there was no entry, and no round with an
      error exit has relisted its node since. */
  lemma {:induction false} StuckExactly(s: Setup, ws: seq<World>, turns: seq<Turn>, i: nat)
    requires ValidSetup(s) && IsTurnChain(s, ws, turns) && i <= |turns|
    requires HistoryOk(ws[0]) && !Stuck(ws[0])
    ensures HistoryOk(ws[i])
    ensures Stuck(ws[i]) <==> StuckBefore(s, ws, turns, i)
  {
    if i > 0 {
      StuckExactly(s, ws, turns, i - 1);
      TurnAt(s, ws, turns, i - 1);
      StuckTurn(s, ws[i - 1], turns[i - 1], ws[i]);
      StuckBeforeStep(s, ws, turns, i - 1);
    }
  }

  ghost predicate NoRelisting(s: Setup, ws: seq<World>, turns: seq<Turn>)
    requires |turns| <= |ws|
  {
    forall k :: 0 <= k < |turns| ==> !RelistsTurn(s, ws[k], turns[k])
  }

  /** A stuck CR outlasts every chain of turns in which no round relists its node. */
  lemma {:induction false} StaysStuck(s: Setup, ws: seq<World>, turns: seq<Turn>, i: nat)
    requires ValidSetup(s) && IsTurnChain(s, ws, turns) && NoRelisting(s, ws, turns) && i <= |turns|
    requires Stuck(ws[0])
    ensures Stuck(ws[i])
  {
    if i > 0 {
      StaysStuck(s, ws, turns, i - 1);
      TurnAt(s, ws, turns, i - 1);
      StuckTurn(s, ws[i - 1], turns[i - 1], ws[i]);
    }
  }

  /** And one relisting round with one clean round of the same node ends it. */
  lemma ErrorExitUnsticks(s: Setup, w: World, h: Host, ch: Choices, clean: Choices, w1: World)
    requires ValidSetup(s) && Stuck(w) && Relists(s, w, h, ch)
    requires w1 == Round(s, w, h, ch).world && CleanRound(s, w1, h, clean)
    ensures Round(s, w1, h, clean).world.obj.None?
  {
    ErrorExitInDeletion(s, w, h, ch);
    WithoutShrinks(w1.obj.value.status, h);
    DrainStep(s, w1, h, clean);
  }

  // ------------------------------------------------------------ when it drains

  ghost predicate TakenOutBefore(s: Setup, ws: seq<World>, turns: seq<Turn>, i: nat, g: Host)
    requires i <= |turns| <= |ws|
  {
    exists k :: 0 <= k < i && TakesOut(s, ws[k], turns[k], g)
  }

  lemma ListedStep(s: Setup, w: World, t: Turn, w': World, g: Host)
    requires ValidSetup(s) && InDeletion(w) && TurnsTo(s, w, t, w') && !(t.Meanwhile? && t.e.Create?)
    requires !RelistsTurn(s, w, t) && w'.obj.Some?
    ensures w.obj.Some? && (ListedIn(w', g) <==> ListedIn(w, g) && !TakesOut(s, w, t, g))
  {
    TurnInDeletion(s, w, t, w');
    AnyTurnFate(s, w, t, w');
  }

  lemma {:induction false} StillListed(s: Setup, ws: seq<World>, turns: seq<Turn>, i: nat, g: Host)
    requires ValidSetup(s) && IsTurnChain(s, ws, turns) && NoCreate(turns) && NoRelisting(s, ws, turns) && i <= |turns|
    requires InDeletion(ws[0]) && ws[0].obj.Some?
    ensures InDeletion(ws[i])
    ensures ws[i].obj.Some? ==> (ListedIn(ws[i], g) <==> ListedIn(ws[0], g) && !TakenOutBefore(s, ws, turns, i, g))
  {
    if i > 0 {
      StillListed(s, ws, turns, i - 1, g);
      TurnAt(s, ws, turns, i - 1);
      TurnInDeletion(s, ws[i - 1], turns[i - 1], ws[i]);
      if ws[i].obj.Some? {
        ListedStep(s, ws[i - 1], turns[i - 1], ws[i], g);
      }
      TakenOutStep(s, ws, turns, i - 1, g);
    }
  }

  lemma TakenOutStep(s: Setup, ws: seq<World>, turns: seq<Turn>, i: nat, g: Host)
    requires i < |turns| <= |ws|
    ensures TakenOutBefore(s, ws, turns, i + 1, g) <==>
            TakenOutBefore(s, ws, turns, i, g) || TakesOut(s, ws[i], turns[i], g)
  {
    if TakesOut(s, ws[i], turns[i], g) {
      assert 0 <= i < i + 1;
    }
  }

  /** Deletion drains although nodes vanish: once every listed node has withdrawn or been cleaned
      away, the CR is gone, or left without any entry. */
  lemma AllTakenOut(s: Setup, ws: seq<World>, turns: seq<Turn>)
    requires ValidSetup(s) && IsTurnChain(s, ws, turns) && NoCreate(turns) && NoRelisting(s, ws, turns)
    requires InDeletion(ws[0]) && ws[0].obj.Some?
    requires forall g :: ListedIn(ws[0], g) ==> TakenOutBefore(s, ws, turns, |turns|, g)
    ensures ws[|turns|].obj.None? || Stuck(ws[|turns|])
  {
    var w := ws[|turns|];
    GoneExactlyByARound(s, ws, turns, |turns|);
    if w.obj.Some? && w.obj.value.status != [] {
      var e := w.obj.value.status[0];
      assert e in w.obj.value.status && ListedIn(w, e.host);
      StillListed(s, ws, turns, |turns|, e.host);
    }
  }

  ghost predicate NoCleaner(turns: seq<Turn>) {
    forall k :: 0 <= k < |turns| ==> !(turns[k].Meanwhile? && turns[k].e.CleanNode?)
  }

  /** Some round before `i` took out the last entry and was refused its finalizer update. */
  ghost predicate StrandedBefore(s: Setup, ws: seq<World>, turns: seq<Turn>, i: nat)
    requires i <= |turns| <= |ws|
  {
    exists k :: 0 <= k < i && Strands(s, ws[k], turns[k])
  }

  lemma CauseIsARound(s: Setup, w: World, t: Turn)
    requires InDeletion(w) && !(t.Meanwhile? && t.e.CleanNode?)
    ensures StuckCause(s, w, t) <==> Strands(s, w, t)
  { }

  /** Without the cleaner, a CR in deletion that lists somebody gets stuck iff a round that takes
      out the last entry is refused its finalizer update. */
  lemma StuckByARound(s: Setup, ws: seq<World>, turns: seq<Turn>)
    requires ValidSetup(s) && IsTurnChain(s, ws, turns) && NoCreate(turns) && NoRelisting(s, ws, turns)
    requires Drainable(ws[0]) && NoCleaner(turns)
    ensures Stuck(ws[|turns|]) <==> StrandedBefore(s, ws, turns, |turns|)
  {
    var n := |turns|;
    StuckExactly(s, ws, turns, n);
    forall k: nat | k < n ensures StuckCause(s, ws[k], turns[k]) <==> Strands(s, ws[k], turns[k]) {
      GoneExactlyByARound(s, ws, turns, k);
      CauseIsARound(s, ws[k], turns[k]);
    }
    if k: nat :| k < n && Strands(s, ws[k], turns[k]) {
      assert StuckSince(s, ws, turns, k, n);
    }
  }

  /** Deletion drains: withdrawals of all listed nodes, in any order and among any other turns, end
      it iff the status was not already empty and the round that takes out the last entry is not
      refused its finalizer update. */
  lemma DrainsExactlyIfListed(s: Setup, ws: seq<World>, turns: seq<Turn>)
    requires ValidSetup(s) && IsTurnChain(s, ws, turns) && NoCreate(turns) && NoRelisting(s, ws, turns)
    requires InDeletion(ws[0]) && ws[0].obj.Some? && NoCleaner(turns)
    requires forall g :: ListedIn(ws[0], g) ==> TakenOutBefore(s, ws, turns, |turns|, g)
    ensures ws[|turns|].obj.None? <==>
            ws[0].obj.value.status != [] && !StrandedBefore(s, ws, turns, |turns|)
  {
    AllTakenOut(s, ws, turns);
    if ws[0].obj.value.status == [] {
      StaysStuck(s, ws, turns, |turns|);
    } else {
      StuckByARound(s, ws, turns);
    }
  }

  // ------------------------------------------------------------ runs that get stuck

  lemma DeleteRequested(s: Setup, w: World, h: Host, gw: Ip)
    requires Converged(s, w, h, gw)
    ensures var w' := AfterOutside(s, w, Delete);
            InDeletion(w') && w'.obj.Some? && w'.obj.value.status == w.obj.value.status && w'.live == w.live
            && w'.obj.value.spec == w.obj.value.spec && ManagedOf(w', h) == ManagedOf(w, h)
  {
    OutsideStore(s, w, Delete);
  }

  /** Create, one undisturbed round, and the user's request to delete. */
  lemma ServedAndDeleted(s: Setup, live: set<Host>, spec: Spec, h: Host, ch: Choices, gw: Ip)
    returns (ws: seq<World>, turns: seq<Turn>)
    requires ValidSetup(s) && h in live && Addable(s.options(h), spec, ch, gw)
    ensures IsRoundRun(s, ws, turns) && ws[|turns|].live == live && Drainable(ws[|turns|])
    ensures ws[|turns|].obj.value.spec == spec && Without(ws[|turns|].obj.value.status, h) == []
    ensures |ws[|turns|].obj.value.status| == 1 && ListedIn(ws[|turns|], h)
  {
    FirstRoundConverges(s, live, spec, h, ch, gw);
    RunFrame(s, Created(live, spec), h, AwaitGet, ch);
    ws, turns := FirstTurns(s, live, spec, h, ch, gw);
    var w := ws[|turns|];
    DeleteRequested(s, w, h, gw);
    WithoutShrinks(w.obj.value.status, h);
    ws, turns := OneMoreTurn(s, ws, turns, Meanwhile(Delete));
  }

  /** The first way, without any failure: the only listed node vanishes, and the cleaner follows. */
  lemma StuckIsReached(s: Setup, live: set<Host>, spec: Spec, h: Host, ch: Choices, gw: Ip)
    returns (ws: seq<World>, turns: seq<Turn>)
    requires ValidSetup(s) && h in live && Addable(s.options(h), spec, ch, gw)
    ensures IsRoundRun(s, ws, turns) && Stuck(ws[|turns|]) && ws[|turns|].live == live - {h}
  {
    ws, turns := ServedAndDeleted(s, live, spec, h, ch, gw);
    ws, turns := OneMoreTurn(s, ws, turns, Meanwhile(NodeGone(h)));
    var w := ws[|turns|];
    var clean := CleanNode(h, w.obj.value.version);
    AnyTurnFate(s, w, Meanwhile(clean), AfterOutside(s, w, clean));
    ws, turns := OneMoreTurn(s, ws, turns, Meanwhile(clean));
  }

  /** The same answers, but the finalizer update is refused. */
  function ClearRefused(ch: Choices): Choices {
    (k: nat) => if k == CLEAR then ch(k).(fail := Some(CONFLICT)) else ch(k)
  }

  lemma RefusedClearStrands(s: Setup, w: World, h: Host, ch: Choices, gw: Ip)
    requires ValidSetup(s) && Drainable(w) && |w.obj.value.status| == 1 && ListedIn(w, h)
    requires Addable(s.options(h), w.obj.value.spec, ch, gw)
    ensures Strands(s, w, RoundOf(h, ClearRefused(ch))) && Stuck(Round(s, w, h, ClearRefused(ch)).world)
  {
    AnyRoundFate(s, w, h, ClearRefused(ch));
  }

  /** The second way: all nodes live, and one finalizer update is refused. */
  lemma OneRefusalStrands(s: Setup, live: set<Host>, spec: Spec, h: Host, ch: Choices, gw: Ip)
    returns (ws: seq<World>, turns: seq<Turn>)
    requires ValidSetup(s) && h in live && Addable(s.options(h), spec, ch, gw)
    ensures IsRoundRun(s, ws, turns) && Stuck(ws[|turns|]) && ws[|turns|].live == live
  {
    ws, turns := ServedAndDeleted(s, live, spec, h, ch, gw);
    var w := ws[|turns|];
    RefusedClearStrands(s, w, h, ch, gw);
    RunFrame(s, w, h, AwaitGet, ClearRefused(ch));
    ws, turns := OneMoreTurn(s, ws, turns, RoundOf(h, ClearRefused(ch)));
  }

  /** No chain of turns strands a deletion, if its rounds honour `trust` and neither the cleaner nor
      a relisting round takes part. */
  ghost predicate NeverStranded(s: Setup, trust: Trust) {
    forall ws, turns :: StrandingChain(s, trust, ws, turns) ==> !Stuck(ws[|turns|])
  }

  ghost predicate StrandingChain(s: Setup, trust: Trust, ws: seq<World>, turns: seq<Turn>) {
    IsTurnChain(s, ws, turns) && NoCreate(turns) && NoRelisting(s, ws, turns) && NoCleaner(turns) && Drainable(ws[0])
    && forall k :: 0 <= k < |turns| && turns[k].RoundOf? ==> Honoured(trust, turns[k].ch)
  }

  lemma StrandedInOne(s: Setup, trust: Trust, w: World, h: Host, ch: Choices)
    requires ValidSetup(s) && Drainable(w) && h in w.live && Strands(s, w, RoundOf(h, ch)) && Honoured(trust, ch)
    ensures !NeverStranded(s, trust)
  {
    AnyRoundFate(s, w, h, ch);
    var us, ts := [w, Round(s, w, h, ch).world], [RoundOf(h, ch)];
    assert StrandingChain(s, trust, us, ts) && Stuck(us[|ts|]);
  }

  /** The exact condition on refusals: of all calls, only the finalizer update must not fail. */
  lemma StrandedExactlyIf(s: Setup, trust: Trust, spec: Spec, h: Host, ch: Choices, gw: Ip)
    requires ValidSetup(s) && Addable(s.options(h), spec, ch, gw) && Honoured(trust, ch)
    ensures NeverStranded(s, trust) <==> CLEAR in trust.sure
  {
    if CLEAR in trust.sure {
      forall ws, turns | StrandingChain(s, trust, ws, turns) ensures !Stuck(ws[|turns|]) {
        StuckByARound(s, ws, turns);
      }
    } else {
      var ws, turns := ServedAndDeleted(s, {h}, spec, h, ch, gw);
      var w := ws[|turns|];
      RefusedClearStrands(s, w, h, ch, gw);
      StrandedInOne(s, trust, w, h, ClearRefused(ch));
    }
  }
}
