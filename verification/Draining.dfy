/** What one round does to a CR in deletion, whatever its calls are answered: it withdraws its
    node, reports an error, or leaves the object alone. */
module Draining {
  import opened Ipv4
  import opened Optional
  import opened StaticRoutes
  import opened Reconcile
  import opened Cluster
  import opened FineSteps
  import opened Neighbours
  import opened Settling

  /** Nothing but a deletion is asked for, if the CR still exists. */
  ghost predicate InDeletion(w: World) {
    HistoryOk(w) && (w.obj.Some? ==> w.obj.value.deleting)
  }

  ghost predicate Drainable(w: World) {
    InDeletion(w) && w.obj.Some? && w.obj.value.status != []
  }

  /** The status of a CR in deletion is empty, so nobody is left to take its finalizer away. */
  ghost predicate Stuck(w: World) {
    InDeletion(w) && w.obj.Some? && w.obj.value.status == []
  }

  // ------------------------------------------------------------ kinds of rounds

  /** GetGw settles on some gateway. */
  predicate Resolvable(spec: Spec, c: Choice) {
    c.fail.None? && if spec.gateway.Dotted? then c.hop.None? else spec.gateway.EmptyText? && c.hop.Some?
  }

  function HopOf(spec: Spec, c: Choice): Ip
    requires Resolvable(spec, c)
  {
    if spec.gateway.Dotted? then spec.gateway.ip else c.hop.value
  }

  ghost predicate Routable(s: Setup, w: World, h: Host, ch: Choices)
    requires w.obj.Some?
  {
    Unprotected(s.options(h), w.obj.value.spec) && Resolvable(w.obj.value.spec, ch(GATEWAY))
  }

  /** A round that gets as far as the choice between adding and withdrawing: it reads the stored
      object, the selectors are in order, the subnet is unprotected and the gateway resolves. Its
      later calls may be answered in any way. */
  ghost predicate Reaches(s: Setup, w: World, h: Host, ch: Choices) {
    SeesObject(w, ch) && Routable(s, w, h, ch)
    && (Selected(s.options(h), w.obj.value.spec, ch) || Deselected(s.options(h), w.obj.value.spec, ch))
  }

  /** A round that reads the stored object and ends with a report. */
  ghost predicate ErrorExits(s: Setup, w: World, h: Host, ch: Choices) {
    SeesObject(w, ch) &&
    var o, spec := s.options(h), w.obj.value.spec;
    (spec.selectors != [] && (!SelectorsUsable(o, spec.selectors) || ch(LIST).fail.Some?))
    || (Selected(o, spec, ch) && !Routable(s, w, h, ch))
  }

  /** A round without error exit in which nothing fails. */
  ghost predicate CleanRound(s: Setup, w: World, h: Host, ch: Choices) {
    Undisturbed(ch) && (w.obj.Some? ==> Reaches(s, w, h, ch))
  }

  // ------------------------------------------------------------ rounds that reach the choice

  /** During deletion the choice is to withdraw a listed node, and to do nothing for another. */
  lemma ReachingRound(s: Setup, w: World, h: Host, ch: Choices)
    requires ValidSetup(s) && InDeletion(w) && Reaches(s, w, h, ch)
    ensures var w' := Round(s, w, h, ch).world;
            if Listed(w.obj.value.status, h) then Deleted(s, w, h, Without(w.obj.value.status, h), ch, w') else w' == w
  {
    var r, o, gw := w.obj.value, s.options(h), HopOf(w.obj.value.spec, ch(GATEWAY));
    var changed := Changed(r.status, h, r.spec, Dotted(gw));
    if Selected(o, r.spec, ch) { SelectedRound(s, w, h, ch, gw); } else { DeselectedRound(s, w, h, ch, gw); }
    if Listed(r.status, h) {
      WithoutDistinct(r.status, h);
      DeletionRuns(s, w, h, r.(status := Without(r.status, h)), changed, ch);
    }
  }

  /** One clean round during deletion: a listed node takes out exactly its own entry and releases
      its route, the round that takes out the last entry ends the object, and the round of an
      unlisted node changes nothing. */
  lemma DrainStep(s: Setup, w: World, h: Host, ch: Choices)
    requires ValidSetup(s) && Drainable(w) && CleanRound(s, w, h, ch)
    ensures var w' := Round(s, w, h, ch).world;
            if Listed(w.obj.value.status, h) then
              Withdrawn(s, w, h, w')
              && (|w.obj.value.status| == 1 ==> w'.obj.None?)
              && (|w.obj.value.status| > 1 ==> Drainable(w') && |w'.obj.value.status| == |w.obj.value.status| - 1)
            else w' == w
  {
    ReachingRound(s, w, h, ch);
    WithoutShrinks(w.obj.value.status, h);
  }

  /** A CR whose deletion was requested when its status was already empty: a round that gets as far
      as the choice changes nothing, whatever it is answered. */
  lemma EmptyStatusIsStuck(s: Setup, w: World, h: Host, ch: Choices)
    requires ValidSetup(s) && Stuck(w) && Reaches(s, w, h, ch)
    ensures Round(s, w, h, ch).world == w
  {
    ReachingRound(s, w, h, ch);
  }

  // ------------------------------------------------------------ rounds that report

  /** Every error exit leads to the deferred report. */
  lemma ErrorExitFinishes(s: Setup, w: World, h: Host, ch: Choices)
    returns (gateway: Option<Ip>, res: Result, err: Option<string>)
    requires ValidSetup(s) && HistoryOk(w) && ErrorExits(s, w, h, ch)
    ensures Round(s, w, h, ch).world ==
            RunToEnd(s, w, h, Finish(s.options(h), true, w.obj.value, gateway, res, err), ch).world
  {
    var o, r := s.options(h), w.obj.value;
    RoundFetches(s, w, h, ch);
    if r.spec.selectors != [] && !SelectorsUsable(o, r.spec.selectors) {
      gateway, res, err := Some(ZERO_IP), WrongSelectorErr, None;
    } else if r.spec.selectors != [] && ch(LIST).fail.Some? {
      ReadStep(s, w, h, AwaitList(r), ch);
      gateway, res, err := Some(ZERO_IP), NodeGetError, ch(LIST).fail;
    } else {
      RoundSelects(s, w, h, ch);
      gateway, res, err := UnroutableFinishes(s, w, h, ch);
    }
  }

  lemma UnroutableFinishes(s: Setup, w: World, h: Host, ch: Choices)
    returns (gateway: Option<Ip>, res: Result, err: Option<string>)
    requires w.obj.Some? && !Routable(s, w, h, ch)
    ensures RunToEnd(s, w, h, AfterSelect(s.options(h), w.obj.value, false), ch).world ==
            RunToEnd(s, w, h, Finish(s.options(h), true, w.obj.value, gateway, res, err), ch).world
  {
    var o, r, c := s.options(h), w.obj.value, ch(GATEWAY);
    if !Unprotected(o, r.spec) {
      gateway, res, err := Some(ZERO_IP), OverlapsProtected, None;
    } else if !r.spec.gateway.Dotted? && !r.spec.gateway.EmptyText? {
      gateway, res, err := None, InvalidGatewayError, None;
    } else {
      ReadStep(s, w, h, AwaitGw(r, false), ch);
      if c.fail.Some? { gateway, res, err := None, RouteGetError, c.fail; }
      else if r.spec.gateway.Dotted? {
        gateway, res, err := Some(r.spec.gateway.ip), GatewayNotDirectlyRoutableError, None;
      } else { gateway, res, err := None, NoResult, None; }
    }
  }

  /** The deregistration and the removal of the entry both go through. */
  predicate Withdraws(s: Setup, w: World, h: Host, ch: Choices) {
    Releases(s, w, h, ch) && ch(DEL_STATUS).fail.None?
  }

  /** What a round with an error exit does to a CR in deletion: the deferred block reports, then
      deletes with the reported entry still in the list. So the object stays, the route goes unless
      its deregistration fails, and the node is listed unless it was not and neither of
      the two status writes has gone through. */
  ghost predicate Reported(s: Setup, w: World, h: Host, ch: Choices, w': World)
    requires w.obj.Some?
  {
    InDeletion(w') && w'.obj.Some? && w'.live == w.live && (Holds(s, w', h) <==> !Releases(s, w, h, ch))
    && Without(w'.obj.value.status, h) == Without(w.obj.value.status, h)
    && (ListedIn(w', h) <==> ListedIn(w, h) || ch(REPORT).fail.None? || Withdraws(s, w, h, ch))
  }

  /** A deletion that leaves an entry leaves the object. */
  lemma DeletedKeeps(s: Setup, w: World, h: Host, t: seq<Entry>, ch: Choices, w': World)
    requires InDeletion(w) && w.obj.Some? && Deleted(s, w, h, t, ch, w') && t != []
    ensures InDeletion(w') && w'.obj.Some?
    ensures w'.obj.value.status == if Withdraws(s, w, h, ch) then t else w.obj.value.status
  { }

  lemma DeferredDeletion(s: Setup, w: World, h: Host, t: seq<Entry>, ch: Choices)
    requires ValidSetup(s) && InDeletion(w) && w.obj.Some? && Distinct(t) && Listed(t, h)
    ensures var w' := RunToEnd(s, w, h, AwaitDeregister(w.obj.value.(status := t), false), ch).world;
            InDeletion(w') && w'.obj.Some? && w'.live == w.live && (Holds(s, w', h) <==> !Releases(s, w, h, ch))
            && w'.obj.value.status == if Withdraws(s, w, h, ch) then t else w.obj.value.status
  {
    var r := w.obj.value.(status := t);
    DeletionRuns(s, w, h, r, false, ch);
    DeletedKeeps(s, w, h, t, ch, RunToEnd(s, w, h, AwaitDeregister(r, false), ch).world);
  }

  lemma ReportAccepted(s: Setup, w: World, h: Host, t: seq<Entry>, res: Result, err: Option<string>, ch: Choices)
    requires ValidSetup(s) && InDeletion(w) && w.obj.Some? && Distinct(t) && Listed(t, h) && ch(REPORT).fail.None?
    requires Without(t, h) == Without(w.obj.value.status, h)
    ensures Reported(s, w, h, ch, RunToEnd(s, w, h, AwaitReport(w.obj.value.(status := t), res, err), ch).world)
  {
    var r := w.obj.value.(status := t);
    var w1 := Commit(w, r);
    CommitHistory(w, r);
    assert w1.obj.value.(status := t) == w1.obj.value;
    OneStep(s, w, h, AwaitReport(r, res, err), ch, w1, AwaitDeregister(w1.obj.value, false));
    DeferredDeletion(s, w1, h, t, ch);
  }

  lemma ReportRefused(s: Setup, w: World, h: Host, t: seq<Entry>, res: Result, err: Option<string>, ch: Choices)
    requires ValidSetup(s) && InDeletion(w) && w.obj.Some? && Distinct(t) && Listed(t, h) && ch(REPORT).fail.Some?
    requires Without(t, h) == Without(w.obj.value.status, h)
    ensures Reported(s, w, h, ch, RunToEnd(s, w, h, AwaitReport(w.obj.value.(status := t), res, err), ch).world)
  {
    var r := w.obj.value.(status := t);
    OneStep(s, w, h, AwaitReport(r, res, err), ch, w, AwaitDeregister(r, false));
    DeferredDeletion(s, w, h, t, ch);
  }

  lemma FinishInDeletion(s: Setup, w: World, h: Host, gateway: Option<Ip>, res: Result, err: Option<string>,
                         ch: Choices)
    requires ValidSetup(s) && InDeletion(w) && w.obj.Some?
    ensures var q := Finish(s.options(h), true, w.obj.value, gateway, res, err);
            Reported(s, w, h, ch, RunToEnd(s, w, h, q, ch).world)
  {
    var r, serr := w.obj.value, StatusError(res, err);
    if StatusMatch(r.status, h, r.spec, gateway, serr) {
      assert Listed(r.status, h) && r.(status := r.status) == r;
      DeferredDeletion(s, w, h, r.status, ch);
    } else {
      var t := Rewritten(r.status, h, r.spec, gateway, serr);
      RewrittenLaws(r.status, h, r.spec, gateway, serr);
      if ch(REPORT).fail.None? {
        ReportAccepted(s, w, h, t, res, err, ch);
      } else {
        ReportRefused(s, w, h, t, res, err, ch);
      }
    }
  }

  /** Every reporting exit during deletion, with any answers. */
  lemma ErrorExitInDeletion(s: Setup, w: World, h: Host, ch: Choices)
    requires ValidSetup(s) && InDeletion(w) && ErrorExits(s, w, h, ch)
    ensures Reported(s, w, h, ch, Round(s, w, h, ch).world)
  {
    var gateway, res, err := ErrorExitFinishes(s, w, h, ch);
    FinishInDeletion(s, w, h, gateway, res, err, ch);
  }

  // ------------------------------------------------------------ all other rounds

  /** A round whose copy is not the stored version writes nothing. */
  lemma {:induction false} StaleStagesKeepObject(s: Setup, w: World, h: Host, p: Proc, ch: Choices)
    requires ValidSetup(s) && Steady(s, w, h, p) && !p.AwaitGet? && !IsCurrent(w, p)
    ensures RunToEnd(s, w, h, p, ch).world.obj == w.obj
    decreases Rank(p)
  {
    if !p.Done? {
      StaleStep(s, w, h, p, ch);
      var (w', a) := Answered(s, w, h, p, ch);
      StaleStagesKeepObject(s, w', h, Advance(s.options(h), p, a), ch);
    }
  }

  lemma StaleStep(s: Setup, w: World, h: Host, p: Proc, ch: Choices)
    requires ValidSetup(s) && Steady(s, w, h, p) && HasCopy(p) && !IsCurrent(w, p)
    ensures var (w', a) := Answered(s, w, h, p, ch); var q := Advance(s.options(h), p, a);
            w'.obj == w.obj && Steady(s, w', h, q) && !q.AwaitGet? && !IsCurrent(w', q)
  {
    var (w', a) := Answered(s, w, h, p, ch);
    SteadyStep(s, w, h, p, ch);
    OwnProcOk(s, w, h, p, ch(Rank(p)));
    assert w'.obj == w.obj && !a.AObject?;
    CopyVersion(s.options(h), BaseOf(w, p), p, a);
  }

  /** A round that does not read the stored object leaves it alone. */
  lemma BlindRound(s: Setup, w: World, h: Host, ch: Choices)
    requires ValidSetup(s) && HistoryOk(w) && !SeesObject(w, ch)
    ensures Round(s, w, h, ch).world.obj == w.obj
  {
    var o := s.options(h);
    var (w', a) := Answered(s, w, h, AwaitGet, ch);
    var q := Advance(o, AwaitGet, a);
    SteadyStep(s, w, h, AwaitGet, ch);
    OwnProcOk(s, w, h, AwaitGet, ch(GET));
    if a.AObject? {
      CopyVersion(o, BaseOf(w, AwaitGet), AwaitGet, a);
    }
    OneStep(s, w, h, AwaitGet, ch, w, q);
    StaleStagesKeepObject(s, w, h, q, ch);
  }

  /** A node that no longer matches, whose gateway does not resolve, ends without a report. */
  lemma SilentRound(s: Setup, w: World, h: Host, ch: Choices)
    requires ValidSetup(s) && HistoryOk(w) && SeesObject(w, ch)
    requires Deselected(s.options(h), w.obj.value.spec, ch) && !Routable(s, w, h, ch)
    ensures Round(s, w, h, ch).world == w
  {
    var r := w.obj.value;
    RoundSelects(s, w, h, ch);
    var asks := r.spec.gateway.Dotted? || r.spec.gateway.EmptyText?;
    if Listed(r.status, h) && Unprotected(s.options(h), r.spec) && asks {
      ReadStep(s, w, h, AwaitGw(r, true), ch);
    }
  }

  // ------------------------------------------------------------ the outcome of a round

  /** The round withdraws its node. */
  ghost predicate TakesItselfOut(s: Setup, w: World, h: Host, ch: Choices) {
    Reaches(s, w, h, ch) && Withdraws(s, w, h, ch)
  }

  /** And that takes out the last entry. */
  ghost predicate Empties(s: Setup, w: World, h: Host, ch: Choices) {
    TakesItselfOut(s, w, h, ch) && |w.obj.value.status| == 1 && Listed(w.obj.value.status, h)
  }

  /** A round with an error exit that gets its entry into the status. */
  ghost predicate Relists(s: Setup, w: World, h: Host, ch: Choices) {
    ErrorExits(s, w, h, ch) && (ch(REPORT).fail.None? || Withdraws(s, w, h, ch))
  }

  /** The exact outcome of any round during deletion: only a round that takes out the last entry can
      end the object, and does iff the finalizer update is accepted; if that is refused, the
      CR is stuck. A stuck one stays so unless the round relists its node. */
  ghost predicate RoundFate(s: Setup, w: World, h: Host, ch: Choices, w': World)
    requires w.obj.Some?
  {
    InDeletion(w')
    && (w'.obj.None? <==> Empties(s, w, h, ch) && ch(CLEAR).fail.None?)
    && (Stuck(w') <==> if Stuck(w) then !Relists(s, w, h, ch) else Empties(s, w, h, ch) && ch(CLEAR).fail.Some?)
    && (w'.obj.Some? && !Relists(s, w, h, ch) ==>
          forall g :: ListedIn(w', g) <==> ListedIn(w, g) && !(g == h && TakesItselfOut(s, w, h, ch)))
  }

  lemma ReachingFate(s: Setup, w: World, h: Host, ch: Choices)
    requires ValidSetup(s) && InDeletion(w) && Reaches(s, w, h, ch)
    ensures RoundFate(s, w, h, ch, Round(s, w, h, ch).world)
  {
    var t := w.obj.value.status;
    ReachingRound(s, w, h, ch);
    WithoutShrinks(t, h);
    forall g ensures Listed(Without(t, h), g) <==> Listed(t, g) && g != h {
      WithoutListed(t, h, g);
    }
  }

  lemma ErrorFate(s: Setup, w: World, h: Host, ch: Choices)
    requires ValidSetup(s) && InDeletion(w) && ErrorExits(s, w, h, ch)
    ensures RoundFate(s, w, h, ch, Round(s, w, h, ch).world)
  {
    var w' := Round(s, w, h, ch).world;
    ErrorExitInDeletion(s, w, h, ch);
    ReportedFate(s, w, h, ch, w');
  }

  lemma ReportedFate(s: Setup, w: World, h: Host, ch: Choices, w': World)
    requires InDeletion(w) && ErrorExits(s, w, h, ch) && Reported(s, w, h, ch, w')
    ensures RoundFate(s, w, h, ch, w')
  {
    var t, t' := w.obj.value.status, w'.obj.value.status;
    assert !Reaches(s, w, h, ch);
    forall g ensures g != h ==> (Listed(t', g) <==> Listed(t, g)) {
      if g != h { OthersKept(t, t', h, g); }
    }
    SameWithoutEmpty(t, t', h);
  }

  /** Lists that agree without one host, of which one is empty. */
  lemma SameWithoutEmpty(t: seq<Entry>, t': seq<Entry>, h: Host)
    requires Without(t, h) == Without(t', h)
    ensures t == [] && !Listed(t', h) ==> t' == []
    ensures t' == [] && !Listed(t, h) ==> t == []
    ensures Listed(t, h) ==> t != []
    ensures Listed(t', h) ==> t' != []
  {
    if !Listed(t', h) { WithoutUnlisted(t', h); }
    if !Listed(t, h) { WithoutUnlisted(t, h); }
  }

  lemma WithoutListed(status: seq<Entry>, h: Host, g: Host)
    ensures Listed(Without(status, h), g) <==> Listed(status, g) && g != h
  {
    if Listed(Without(status, h), g) {
      var e :| e in Without(status, h) && e.host == g;
      WithoutMember(status, h, e);
    }
    if Listed(status, g) && g != h {
      var e :| e in status && e.host == g;
      WithoutMember(status, h, e);
    }
  }

  /** Every round has such an outcome, with any reads and any answers. */
  lemma AnyRoundFate(s: Setup, w: World, h: Host, ch: Choices)
    requires ValidSetup(s) && InDeletion(w) && w.obj.Some?
    ensures RoundFate(s, w, h, ch, Round(s, w, h, ch).world)
  {
    StagesKeepHistory(s, w, h, AwaitGet, ch);
    if Reaches(s, w, h, ch) {
      ReachingFate(s, w, h, ch);
    } else if ErrorExits(s, w, h, ch) {
      ErrorFate(s, w, h, ch);
    } else if SeesObject(w, ch) {
      SilentRound(s, w, h, ch);
    } else {
      BlindRound(s, w, h, ch);
    }
  }
}
