/** What undisturbed rounds do, and the withdrawal of a node whose labels have changed. */
module Settling {
  import opened Ipv4
  import opened Optional
  import opened StaticRoutes
  import opened RouteManager
  import opened Protection
  import opened Reconcile
  import opened Cluster
  import opened NodeCleaner
  import opened FineSteps
  import opened Neighbours
  import opened Rounds

  // ------------------------------------------------------------ round conditions

  /** The node matches the selectors. */
  ghost predicate Selected(o: Options, spec: Spec, ch: Choices) {
    spec.selectors != [] ==> SelectorsUsable(o, spec.selectors) && ch(LIST).fail.None? && ch(LIST).nodes > 0
  }

  /** The selectors are in order, and no longer match the node. */
  ghost predicate Deselected(o: Options, spec: Spec, ch: Choices) {
    spec.selectors != [] && SelectorsUsable(o, spec.selectors) && ch(LIST).fail.None? && ch(LIST).nodes == 0
  }

  ghost predicate Unprotected(o: Options, spec: Spec) {
    !Protected(ParseCIDR(spec.subnet), o.protecteds)
  }

  /** GetGw settles on `gw`: the gateway of the spec, directly routable, or the hop towards the
      fallback address. */
  predicate ResolvesTo(spec: Spec, c: Choice, gw: Ip) {
    c.fail.None? &&
    if spec.gateway.Dotted? then c.hop.None? && gw == spec.gateway.ip
    else spec.gateway.EmptyText? && c.hop == Some(gw)
  }

  /** Every API write of the round is accepted. */
  predicate WritesAccepted(ch: Choices) {
    ch(ADD_FINALIZER).fail.None? && ch(REPORT).fail.None? && ch(DEL_STATUS).fail.None? && ch(CLEAR).fail.None?
  }

  /** The reads and writes of the API succeed, and the kernel does what it is told or finds it
      already done. */
  predicate Undisturbed(ch: Choices) {
    FreshRead(ch) && WritesAccepted(ch)
    && (ch(REGISTER).fail.Some? ==> ch(REGISTER).fail.value == EEXIST)
    && (ch(DEREGISTER).fail.Some? ==> ch(DEREGISTER).fail.value == ESRCH)
  }

  predicate IsRead(c: Call) {
    c.CGet? || c.CList? || c.CGetGw? || c.CIsRegistered?
  }

  /** No API write and no kernel command. */
  predicate OnlyReads(es: seq<Exchange>) {
    forall e :: e in es ==> IsRead(e.call)
  }

  /** Two outcomes differ at most in calls that only read. */
  ghost predicate SameUpToReads(a: Outcome, b: Outcome) {
    a.world == b.world && a.last == b.last && (OnlyReads(b.exchanges) ==> OnlyReads(a.exchanges))
  }

  /** A call that only reads leaves the world alone. */
  lemma ReadStep(s: Setup, w: World, h: Host, p: Proc, ch: Choices)
    requires !p.Done? && IsRead(Pending(s.options(h), p))
    ensures var a := Answered(s, w, h, p, ch).1;
            SameUpToReads(RunToEnd(s, w, h, p, ch), RunToEnd(s, w, h, Advance(s.options(h), p, a), ch))
  {
    var (w', a) := Answered(s, w, h, p, ch);
    assert w' == w;
  }

  /** One call of a round, as a step between two stages. */
  lemma OneStep(s: Setup, w: World, h: Host, p: Proc, ch: Choices, w': World, q: Proc)
    requires !p.Done? && Answered(s, w, h, p, ch).0 == w'
    requires Advance(s.options(h), p, Answered(s, w, h, p, ch).1) == q
    ensures RunToEnd(s, w, h, p, ch).world == RunToEnd(s, w', h, q, ch).world
    ensures RunToEnd(s, w, h, p, ch).last == RunToEnd(s, w', h, q, ch).last
  { }

  lemma RoundFetches(s: Setup, w: World, h: Host, ch: Choices)
    requires HistoryOk(w) && SeesObject(w, ch)
    ensures SameUpToReads(Round(s, w, h, ch), RunToEnd(s, w, h, Fetched(s.options(h), w.obj.value), ch))
  {
    ReadStep(s, w, h, AwaitGet, ch);
  }

  lemma RoundSelects(s: Setup, w: World, h: Host, ch: Choices)
    requires HistoryOk(w) && SeesObject(w, ch)
    ensures Selected(s.options(h), w.obj.value.spec, ch) ==>
              SameUpToReads(Round(s, w, h, ch), RunToEnd(s, w, h, AfterSelect(s.options(h), w.obj.value, false), ch))
    ensures Deselected(s.options(h), w.obj.value.spec, ch) ==>
              SameUpToReads(Round(s, w, h, ch), RunToEnd(s, w, h, NoneSelected(s.options(h), w.obj.value), ch))
  {
    RoundFetches(s, w, h, ch);
    var r := w.obj.value;
    if r.spec.selectors != [] && SelectorsUsable(s.options(h), r.spec.selectors) {
      ReadStep(s, w, h, AwaitList(r), ch);
    }
  }

  lemma RoundResolves(s: Setup, w: World, h: Host, ch: Choices, gw: Ip, noLonger: bool)
    requires HistoryOk(w) && w.obj.Some?
    requires Unprotected(s.options(h), w.obj.value.spec) && ResolvesTo(w.obj.value.spec, ch(GATEWAY), gw)
    ensures SameUpToReads(RunToEnd(s, w, h, AfterSelect(s.options(h), w.obj.value, noLonger), ch),
                          RunToEnd(s, w, h, Resolved(s.options(h), w.obj.value, gw, noLonger), ch))
  {
    ReadStep(s, w, h, AwaitGw(w.obj.value, noLonger), ch);
  }

  /** A round gets through to its branch with the gateway resolved. */
  ghost predicate GoesThrough(s: Setup, w: World, h: Host, ch: Choices, gw: Ip) {
    HistoryOk(w) && SeesObject(w, ch)
    && Unprotected(s.options(h), w.obj.value.spec) && ResolvesTo(w.obj.value.spec, ch(GATEWAY), gw)
  }

  lemma SelectedRound(s: Setup, w: World, h: Host, ch: Choices, gw: Ip)
    requires GoesThrough(s, w, h, ch, gw) && Selected(s.options(h), w.obj.value.spec, ch)
    ensures SameUpToReads(Round(s, w, h, ch), RunToEnd(s, w, h, Resolved(s.options(h), w.obj.value, gw, false), ch))
  {
    RoundSelects(s, w, h, ch);
    RoundResolves(s, w, h, ch, gw, false);
  }

  lemma DeselectedRound(s: Setup, w: World, h: Host, ch: Choices, gw: Ip)
    requires ValidSetup(s) && GoesThrough(s, w, h, ch, gw) && Deselected(s.options(h), w.obj.value.spec, ch)
    ensures Listed(w.obj.value.status, h) ==>
              SameUpToReads(Round(s, w, h, ch), RunToEnd(s, w, h, Resolved(s.options(h), w.obj.value, gw, true), ch))
    ensures !Listed(w.obj.value.status, h) ==>
              Round(s, w, h, ch).world == w && OnlyReads(Round(s, w, h, ch).exchanges)
  {
    RoundSelects(s, w, h, ch);
    RoundResolves(s, w, h, ch, gw, true);
  }

  // ------------------------------------------------------------ withdrawing

  /** The object after an undisturbed withdrawal: the entries `left`, and no finalizer (no object,
      if it is being deleted) when none is left. */
  function WithdrawnObject(w: World, left: seq<Entry>): Option<Resource>
    requires w.obj.Some?
  {
    var r := w.obj.value.(status := left, version := w.next);
    if left != [] then Some(r)
    else if r.deleting then None
    else Some(r.(finalizers := [], version := w.next + 1))
  }

  ghost predicate Withdrawn(s: Setup, w: World, h: Host, w': World)
    requires w.obj.Some?
  {
    w'.obj == WithdrawnObject(w, Without(w.obj.value.status, h))
    && !Holds(s, w', h) && w'.live == w.live && HistoryOk(w')
    && forall g :: g != h ==> ManagedOf(w', g) == ManagedOf(w, g)
  }

  /** The deregistration does not fail: the route is not held, or the kernel drops it or does not
      have it. */
  predicate Releases(s: Setup, w: World, h: Host, ch: Choices) {
    Holds(s, w, h) && ch(DEREGISTER).fail.Some? ==> ch(DEREGISTER).fail.value == ESRCH
  }

  /** The object after the writes of a deletion that would leave the entries `left`. */
  function LeftBy(w: World, left: seq<Entry>, ch: Choices): Option<Resource>
    requires w.obj.Some?
  {
    var r := w.obj.value.(status := left, version := w.next);
    if ch(DEL_STATUS).fail.Some? then w.obj
    else if left != [] || ch(CLEAR).fail.Some? then Some(r)
    else if r.deleting then None
    else Some(r.(finalizers := [], version := w.next + 1))
  }

  lemma DeregisterStep(s: Setup, w: World, h: Host, r: Resource, changed: bool, ch: Choices)
    requires ValidSetup(s) && Releases(s, w, h, ch)
    ensures var w1 := Answered(s, w, h, AwaitDeregister(r, changed), ch).0;
            RunToEnd(s, w, h, AwaitDeregister(r, changed), ch).world ==
            RunToEnd(s, w1, h, AwaitDelStatus(r, changed), ch).world
            && w1 == w.(managed := w1.managed) && !Holds(s, w1, h)
            && forall g :: g != h ==> ManagedOf(w1, g) == ManagedOf(w, g)
  { }

  lemma DeregisterFails(s: Setup, w: World, h: Host, r: Resource, changed: bool, ch: Choices)
    requires ValidSetup(s) && !Releases(s, w, h, ch)
    ensures var w' := RunToEnd(s, w, h, AwaitDeregister(r, changed), ch).world;
            w' == w.(managed := w'.managed) && Holds(s, w', h) && forall g :: ManagedOf(w', g) == ManagedOf(w, g)
  {
    var p := AwaitDeregister(r, changed);
    var (w', a) := Answered(s, w, h, p, ch);
    OneStep(s, w, h, p, ch, w', Advance(s.options(h), p, a));
  }

  lemma DelStatusStep(s: Setup, w: World, h: Host, r: Resource, changed: bool, ch: Choices)
    requires HistoryOk(w) && w.obj.Some? && r.version == w.obj.value.version && Distinct(r.status)
    requires ch(DEL_STATUS).fail.None?
    ensures var b := w.obj.value.(status := r.status);
            RunToEnd(s, w, h, AwaitDelStatus(r, changed), ch).world ==
            RunToEnd(s, Commit(w, b), h, DelStatusStored(b.(version := w.next), changed), ch).world
    ensures var b := w.obj.value.(status := r.status);
            HistoryOk(Commit(w, b)) && Commit(w, b).obj == Some(b.(version := w.next))
  {
    CommitHistory(w, w.obj.value.(status := r.status));
  }

  lemma ClearStep(s: Setup, w: World, h: Host, changed: bool, ch: Choices)
    requires HistoryOk(w) && w.obj.Some? && w.obj.value.status == [] && ch(CLEAR).fail.None?
    ensures RunToEnd(s, w, h, AwaitClear(w.obj.value.(finalizers := []), changed), ch).world ==
            Commit(w, w.obj.value.(finalizers := []))
    ensures HistoryOk(Commit(w, w.obj.value.(finalizers := [])))
  {
    var r := w.obj.value.(finalizers := []);
    CommitHistory(w, r);
    var p := AwaitClear(r, changed);
    var (w', a) := Answered(s, w, h, p, ch);
    assert w.obj.value.(spec := r.spec, finalizers := r.finalizers) == r;
    assert w' == Commit(w, r);
  }

  lemma ClearNotWritten(s: Setup, w: World, h: Host, r: Resource, changed: bool, ch: Choices)
    requires ch(CLEAR).fail.Some?
    ensures RunToEnd(s, w, h, AwaitClear(r, changed), ch).world == w
  {
    var p := AwaitClear(r, changed);
    var (w', a) := Answered(s, w, h, p, ch);
    OneStep(s, w, h, p, ch, w, Advance(s.options(h), p, a));
  }

  lemma DelStatusRefused(s: Setup, w: World, h: Host, r: Resource, changed: bool, ch: Choices)
    requires ch(DEL_STATUS).fail.Some?
    ensures RunToEnd(s, w, h, AwaitDelStatus(r, changed), ch).world == w
  {
    var p := AwaitDelStatus(r, changed);
    var (w', a) := Answered(s, w, h, p, ch);
    OneStep(s, w, h, p, ch, w, Advance(s.options(h), p, a));
  }

  /** The two writes of a deletion, accepted or refused. */
  lemma DelStatusRuns(s: Setup, w: World, h: Host, r: Resource, changed: bool, ch: Choices)
    requires HistoryOk(w) && w.obj.Some? && r == w.obj.value.(status := r.status) && Distinct(r.status)
    ensures var w' := RunToEnd(s, w, h, AwaitDelStatus(r, changed), ch).world;
            w'.obj == LeftBy(w, r.status, ch) && HistoryOk(w') && w'.managed == w.managed && w'.live == w.live
  {
    if ch(DEL_STATUS).fail.Some? {
      DelStatusRefused(s, w, h, r, changed, ch);
    } else {
      DelStatusStep(s, w, h, r, changed, ch);
      var w2 := Commit(w, r);
      if r.status == [] && ch(CLEAR).fail.Some? {
        ClearNotWritten(s, w2, h, w2.obj.value.(finalizers := []), changed, ch);
      } else if r.status == [] {
        ClearStep(s, w2, h, changed, ch);
      } else {
        assert RunToEnd(s, w2, h, DelDone(changed, DeletionFinished, None), ch).world == w2;
      }
    }
  }

  /** A deletion from its deregistration on, with any answers. */
  ghost predicate Deleted(s: Setup, w: World, h: Host, left: seq<Entry>, ch: Choices, w': World)
    requires w.obj.Some?
  {
    w'.obj == (if Releases(s, w, h, ch) then LeftBy(w, left, ch) else w.obj)
    && (Holds(s, w', h) <==> !Releases(s, w, h, ch)) && w'.live == w.live && HistoryOk(w')
    && forall g :: g != h ==> ManagedOf(w', g) == ManagedOf(w, g)
  }

  lemma DeletionRuns(s: Setup, w: World, h: Host, r: Resource, changed: bool, ch: Choices)
    requires ValidSetup(s) && HistoryOk(w) && w.obj.Some?
    requires r == w.obj.value.(status := r.status) && Distinct(r.status)
    ensures Deleted(s, w, h, r.status, ch, RunToEnd(s, w, h, AwaitDeregister(r, changed), ch).world)
  {
    if Releases(s, w, h, ch) {
      var w1 := Answered(s, w, h, AwaitDeregister(r, changed), ch).0;
      DeregisterStep(s, w, h, r, changed, ch);
      assert HistoryOk(w1);
      DelStatusRuns(s, w1, h, r, changed, ch);
      DeletedBy(s, w, h, r.status, ch, w1, RunToEnd(s, w1, h, AwaitDelStatus(r, changed), ch).world);
    } else {
      DeregisterFails(s, w, h, r, changed, ch);
    }
  }

  lemma DeletedBy(s: Setup, w: World, h: Host, left: seq<Entry>, ch: Choices, w1: World, w': World)
    requires w.obj.Some? && w1 == w.(managed := w1.managed) && !Holds(s, w1, h) && Releases(s, w, h, ch)
    requires forall g :: g != h ==> ManagedOf(w1, g) == ManagedOf(w, g)
    requires w'.obj == LeftBy(w1, left, ch) && HistoryOk(w') && w'.managed == w1.managed && w'.live == w1.live
    ensures Deleted(s, w, h, left, ch, w')
  { }

  lemma WithdrawRuns(s: Setup, w: World, h: Host, changed: bool, ch: Choices)
    requires ValidSetup(s) && HistoryOk(w) && w.obj.Some? && Undisturbed(ch)
    ensures var r := w.obj.value.(status := Without(w.obj.value.status, h));
            Withdrawn(s, w, h, RunToEnd(s, w, h, AwaitDeregister(r, changed), ch).world)
  {
    var r := w.obj.value.(status := Without(w.obj.value.status, h));
    WithoutDistinct(w.obj.value.status, h);
    DeletionRuns(s, w, h, r, changed, ch);
  }

  /** Withdrawal after a label change: one round of a listed node that no longer matches removes
      its entry and releases its route. */
  lemma LabelChangeWithdraws(s: Setup, w: World, h: Host, ch: Choices, gw: Ip)
    requires ValidSetup(s) && GoesThrough(s, w, h, ch, gw) && Undisturbed(ch)
    requires Deselected(s.options(h), w.obj.value.spec, ch) && Listed(w.obj.value.status, h)
    ensures Withdrawn(s, w, h, Round(s, w, h, ch).world)
    ensures !ListedIn(Round(s, w, h, ch).world, h)
  {
    var r := w.obj.value;
    DeselectedRound(s, w, h, ch, gw);
    WithdrawRuns(s, w, h, Changed(r.status, h, r.spec, Dotted(gw)), ch);
    WithoutUnlists(r.status, h);
  }

  lemma GoneRound(s: Setup, w: World, h: Host, ch: Choices)
    requires w.obj.None? && FreshRead(ch)
    ensures Round(s, w, h, ch).world == w && OnlyReads(Round(s, w, h, ch).exchanges)
  {
    ReadStep(s, w, h, AwaitGet, ch);
  }

  /** A round that fetches the CR, if there is one, and finds the node unmatched. */
  ghost predicate UnmatchedRound(s: Setup, w: World, h: Host, ch: Choices) {
    FreshRead(ch) && (w.obj.Some? ==> Deselected(s.options(h), w.obj.value.spec, ch))
  }

  ghost predicate UnmatchedTurn(s: Setup, w: World, t: Turn, h: Host) {
    t.RoundOf? && t.h == h ==> UnmatchedRound(s, w, h, t.ch)
  }

  /** Unlisted, and the manager has the given route or none. */
  ghost predicate Out(s: Setup, w: World, h: Host, held: Option<Route>) {
    HistoryOk(w) && !ListedIn(w, h) && HeldRoute(s, w, h) == held
  }

  lemma OutsideStaysOut(s: Setup, w: World, e: Outside, h: Host, held: Option<Route>)
    requires Out(s, w, h, held) && OutsideEnabled(s, w, e)
    ensures Out(s, AfterOutside(s, w, e), h, held)
  {
    OutsideStore(s, w, e);
    OutsideHolds(s, w, e, h);
    assert HeldRoute(s, AfterOutside(s, w, e), h) == HeldRoute(s, w, h);
    if e.CleanNode? && w.obj.Some? && w.obj.value.version == e.seen {
      var t := w.obj.value.status;
      CleanedMentionsNoOne(t, e.host);
      if h != e.host {
        OthersKept(t, Cut(t, e.host), e.host, h);
      }
    }
  }

  lemma UnmatchedRoundReads(s: Setup, w: World, h: Host, ch: Choices)
    requires HistoryOk(w) && !ListedIn(w, h) && UnmatchedRound(s, w, h, ch) && ValidSetup(s)
    ensures Round(s, w, h, ch).world == w && OnlyReads(Round(s, w, h, ch).exchanges)
  {
    if w.obj.None? {
      GoneRound(s, w, h, ch);
    } else {
      RoundSelects(s, w, h, ch);
    }
  }

  lemma OutTurn(s: Setup, w: World, t: Turn, w': World, h: Host, held: Option<Route>)
    requires ValidSetup(s) && Out(s, w, h, held) && TurnsTo(s, w, t, w') && UnmatchedTurn(s, w, t, h)
    ensures Out(s, w', h, held)
  {
    TurnHistory(s, w, t, w');
    match t
    case RoundOf(g, ch) =>
      if g == h {
        UnmatchedRoundReads(s, w, h, ch);
      } else {
        RoundKeepsOthers(s, w, g, ch, h);
        if w'.obj.Some? { KeptListed(s, w, h, w'); }
      }
    case Meanwhile(e) => OutsideStaysOut(s, w, e, h, held);
  }

  /** And it stays out: among any turns of others (rounds with any answers, edits, deletion,
      re-creation, the node cleaner) a node that is not matched is never listed again, its
      manager keeps what it had, and each of its rounds changes nothing and makes no API write
      and no kernel call. */
  lemma {:induction false} UnmatchedStaysOut(s: Setup, ws: seq<World>, turns: seq<Turn>, h: Host, i: nat)
    requires ValidSetup(s) && IsTurnChain(s, ws, turns) && i < |ws|
    requires HistoryOk(ws[0]) && !ListedIn(ws[0], h)
    requires forall k :: 0 <= k < |turns| ==> UnmatchedTurn(s, ws[k], turns[k], h)
    ensures Out(s, ws[i], h, HeldRoute(s, ws[0], h))
    ensures i < |turns| && turns[i].RoundOf? && turns[i].h == h ==>
              ws[i + 1] == ws[i] && OnlyReads(Round(s, ws[i], h, turns[i].ch).exchanges)
  {
    if i > 0 {
      UnmatchedStaysOut(s, ws, turns, h, i - 1);
      TurnAt(s, ws, turns, i - 1);
      OutTurn(s, ws[i - 1], turns[i - 1], ws[i], h, HeldRoute(s, ws[0], h));
    }
    if i < |turns| && turns[i].RoundOf? && turns[i].h == h {
      TurnAt(s, ws, turns, i);
      UnmatchedRoundReads(s, ws[i], h, turns[i].ch);
    }
  }
}
