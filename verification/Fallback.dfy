/** Exactly when the status tells the truth: on every node whose fallback does not lead to a
    gateway behind a router. On any other node some run, with every API write accepted, ends with
    an entry that claims a table the manager does not use. */
module Fallback {
  import opened Ipv4
  import opened Optional
  import opened StaticRoutes
  import opened Reconcile
  import opened Cluster
  import opened FineSteps
  import opened Rounds
  import opened Truth
  import opened Settling
  import opened Convergence

  /** A round in which nothing fails and GetGw finds the given hop. */
  function Quiet(hop: Option<Ip>): Choices {
    (k: nat) => Choice(None, Latest, 0, hop)
  }

  /** A spec without selectors, for a readable and unprotected subnet. */
  ghost predicate Plain(s: Setup, h: Host, spec: Spec) {
    spec.selectors == [] && ParseCIDR(spec.subnet).Some? && Unprotected(s.options(h), spec)
  }

  /** The given stages do not fail, and no error is without a text. */
  ghost predicate Mild(trust: Trust, ch: Choices) {
    Honoured(trust, ch) && forall k :: ch(k).fail.Some? ==> ch(k).fail.value != ""
  }

  /** After the gateway is known no call is constrained by the network any more. */
  lemma {:induction false} LateStagesFaithful(s: Setup, net: Network, trust: Trust, w: World, h: Host, p: Proc,
                                              ch: Choices)
    requires Rank(p) < GATEWAY && Mild(trust, ch)
    ensures Faithful(s, net, trust, w, h, p, ch)
    decreases Rank(p)
  {
    if !p.Done? {
      var (w', a) := Answered(s, w, h, p, ch);
      LateStagesFaithful(s, net, trust, w', h, Advance(s.options(h), p, a), ch);
    }
  }

  lemma PlainRoundFaithful(s: Setup, net: Network, trust: Trust, w: World, h: Host, r: Resource, ch: Choices)
    requires Answered(s, w, h, AwaitGet, ch) == (w, AObject(r)) && Plain(s, h, r.spec)
    requires (r.spec.gateway.Dotted? || r.spec.gateway.EmptyText?) && Mild(trust, ch)
    requires Answers(net(h, GwQuery(s.options(h), r.spec)), ch(GATEWAY))
    ensures Faithful(s, net, trust, w, h, AwaitGet, ch)
  {
    var o, p := s.options(h), AwaitGw(r, false);
    assert Fetched(o, r) == p;
    var (w', a) := Answered(s, w, h, p, ch);
    LateStagesFaithful(s, net, trust, w', h, Advance(o, p, a), ch);
    assert Faithful(s, net, trust, w, h, p, ch);
  }

  /** A report that is accepted ends a round of a CR that is not being deleted. */
  lemma ReportEnds(s: Setup, w: World, h: Host, r: Resource, res: Result, ch: Choices)
    requires HistoryOk(w) && w.obj.Some? && WritesAccepted(ch) && !w.obj.value.deleting
    requires r == w.obj.value.(status := r.status)
    ensures RunToEnd(s, w, h, AwaitReport(r, res, None), ch).world == Commit(w, r)
  {
    var (w', a) := Answered(s, w, h, AwaitReport(r, res, None), ch);
    OneStep(s, w, h, AwaitReport(r, res, None), ch, w', Done(res, None));
    assert RunToEnd(s, w', h, Done(res, None), ch).world == w';
  }

  /** A gateway behind a router is reported as an error; the route in place stays. */
  lemma RouterRound(s: Setup, w: World, h: Host, bad: Ip, router: Ip)
    requires ValidSetup(s) && HistoryOk(w) && w.obj.Some? && !w.obj.value.deleting
    requires Plain(s, h, w.obj.value.spec) && w.obj.value.spec.gateway == Dotted(bad)
    requires !StatusMatch(w.obj.value.status, h, w.obj.value.spec, Some(bad), Some(NOT_ROUTABLE_TEXT))
    ensures Round(s, w, h, Quiet(Some(router))).world == Reported(w, h, bad, Some(NOT_ROUTABLE_TEXT))
  {
    var r, o, ch := w.obj.value, s.options(h), Quiet(Some(router));
    var reported := r.(status := Rewritten(r.status, h, r.spec, Some(bad), Some(NOT_ROUTABLE_TEXT)));
    RoundFetches(s, w, h, ch);
    OneStep(s, w, h, AwaitGw(r, false), ch, w, AwaitReport(reported, GatewayNotDirectlyRoutableError, None));
    ReportEnds(s, w, h, reported, GatewayNotDirectlyRoutableError, ch);
  }

  lemma HeldStage(s: Setup, w: World, h: Host, gw: Ip, ch: Choices)
    requires ValidSetup(s) && w.obj.Some? && !w.obj.value.deleting && w.obj.value.finalizers != [] && Holds(s, w, h)
    requires !Changed(w.obj.value.status, h, w.obj.value.spec, Dotted(gw))
    requires !StatusMatch(w.obj.value.status, h, w.obj.value.spec, Some(gw), None)
    ensures var r, o := w.obj.value, s.options(h);
            var p := AwaitIsRegistered(r, gw, TableOf(o, r.spec));
            Resolved(o, r, gw, false) == p && Answered(s, w, h, p, ch) == (w, ABool(true))
            && Advance(o, p, ABool(true)) ==
               AwaitReport(r.(status := Rewritten(r.status, h, r.spec, Some(gw), None)), Finished, None)
  { }

  /** If the entry looks unchanged, the route in place is taken for the requested one. */
  lemma HeldRound(s: Setup, w: World, h: Host, hop: Option<Ip>, gw: Ip)
    requires ValidSetup(s) && HistoryOk(w) && w.obj.Some? && !w.obj.value.deleting && w.obj.value.finalizers != []
    requires Plain(s, h, w.obj.value.spec) && ResolvesTo(w.obj.value.spec, Quiet(hop)(GATEWAY), gw) && Holds(s, w, h)
    requires !Changed(w.obj.value.status, h, w.obj.value.spec, Dotted(gw))
    requires !StatusMatch(w.obj.value.status, h, w.obj.value.spec, Some(gw), None)
    ensures Round(s, w, h, Quiet(hop)).world == Reported(w, h, gw, None)
  {
    SelectedRound(s, w, h, Quiet(hop), gw);
    HeldStage(s, w, h, gw, Quiet(hop));
    HeldFromLookup(s, w, h, hop, gw);
  }

  lemma HeldFromLookup(s: Setup, w: World, h: Host, hop: Option<Ip>, gw: Ip)
    requires ValidSetup(s) && HistoryOk(w) && w.obj.Some? && !w.obj.value.deleting && w.obj.value.finalizers != []
    requires Holds(s, w, h) && !Changed(w.obj.value.status, h, w.obj.value.spec, Dotted(gw))
    requires !StatusMatch(w.obj.value.status, h, w.obj.value.spec, Some(gw), None)
    ensures var p := AwaitIsRegistered(w.obj.value, gw, TableOf(s.options(h), w.obj.value.spec));
            RunToEnd(s, w, h, p, Quiet(hop)).world == Reported(w, h, gw, None)
  {
    var r, o, ch := w.obj.value, s.options(h), Quiet(hop);
    var reported := r.(status := Rewritten(r.status, h, r.spec, Some(gw), None));
    HeldStage(s, w, h, gw, ch);
    OneStep(s, w, h, AwaitIsRegistered(r, gw, TableOf(o, r.spec)), ch, w, AwaitReport(reported, Finished, None));
    ReportEnds(s, w, h, reported, Finished, ch);
  }

  /** What an entry of `h` says after a rewrite. */
  lemma RewrittenSays(status: seq<Entry>, h: Host, spec: Spec, gw: Ip, err: Option<string>, other: Spec,
                      asked: Ip, otherErr: Option<string>)
    ensures var t := Rewritten(status, h, spec, Some(gw), err);
            NewEntry(h, spec, Some(gw), err) in t
            && (StatusMatch(t, h, other, Some(asked), otherErr) ==>
                  other.subnet == spec.subnet && asked == gw && ErrorText(otherErr) == ErrorText(err))
            && (other == spec.(gateway := other.gateway) && asked == gw ==> !Changed(t, h, other, Dotted(asked)))
  {
    var t := Rewritten(status, h, spec, Some(gw), err);
    assert NewEntry(h, spec, Some(gw), err) == t[|t| - 1];
    forall e | e in t && e.host == h ensures e == NewEntry(h, spec, Some(gw), err) {
      RewrittenEntry(status, h, spec, Some(gw), err, e);
    }
  }

  /** The world after the user has set the spec. */
  function Edited(w: World, spec: Spec): World
    requires w.obj.Some?
  {
    Commit(w, w.obj.value.(spec := spec))
  }

  lemma EditedWorld(s: Setup, w: World, h: Host, spec: Spec)
    requires HistoryOk(w) && w.obj.Some? && w.obj.value.finalizers != [] && !w.obj.value.deleting
    ensures HistoryOk(Edited(w, spec)) && Edited(w, spec).obj == Some(w.obj.value.(spec := spec, version := w.next))
    ensures HeldRoute(s, Edited(w, spec), h) == HeldRoute(s, w, h)
  {
    CommitStored(s, w, h, w.obj.value.(spec := spec));
  }

  /** The world after the node's report has been stored. */
  function Reported(w: World, h: Host, gw: Ip, err: Option<string>): World
    requires w.obj.Some?
  {
    var r := w.obj.value;
    Commit(w, r.(status := Rewritten(r.status, h, r.spec, Some(gw), err)))
  }

  lemma ReportedWorld(s: Setup, w: World, h: Host, gw: Ip, err: Option<string>)
    requires HistoryOk(w) && w.obj.Some? && w.obj.value.finalizers != [] && !w.obj.value.deleting
    ensures HistoryOk(Reported(w, h, gw, err)) && Reported(w, h, gw, err).obj ==
              Some(w.obj.value.(status := Rewritten(w.obj.value.status, h, w.obj.value.spec, Some(gw), err),
                                version := w.next))
    ensures HeldRoute(s, Reported(w, h, gw, err), h) == HeldRoute(s, w, h)
  {
    var r := w.obj.value;
    var t := Rewritten(r.status, h, r.spec, Some(gw), err);
    RewrittenLaws(r.status, h, r.spec, Some(gw), err);
    CommitStored(s, w, h, r.(status := t));
  }

  lemma CommitStored(s: Setup, w: World, h: Host, r: Resource)
    requires HistoryOk(w) && Distinct(r.status) && !r.deleting
    ensures HistoryOk(Commit(w, r)) && Commit(w, r).obj == Some(r.(version := w.next))
    ensures HeldRoute(s, Commit(w, r), h) == HeldRoute(s, w, h)
  {
    CommitHistory(w, r);
  }

  // The three requests of the run. They differ in the gateway asked for and in the table.
  const OLD_TABLE := 0
  const NEW_TABLE := 1

  function First(spec: Spec): Spec {
    spec.(gateway := EmptyText, table := Some(OLD_TABLE))
  }

  function Refused(spec: Spec, bad: Ip): Spec {
    Asking(spec, bad, NEW_TABLE)
  }

  function Again(spec: Spec): Spec {
    spec.(gateway := EmptyText, table := Some(NEW_TABLE))
  }

  /** A request over a gateway of its own. */
  function Asking(spec: Spec, gw: Ip, table: int): Spec {
    spec.(gateway := Dotted(gw), table := Some(table))
  }

  /** A converged node's entry differs from a request for another table. */
  lemma EditedIsChanged(s: Setup, w: World, h: Host, spec: Spec, gw: Ip)
    requires Converged(s, w, h, gw) && w.obj.value.spec == Asking(spec, gw, OLD_TABLE)
    ensures Changed(w.obj.value.status, h, Asking(spec, gw, NEW_TABLE), Dotted(gw))
  {
    var m :| m in w.obj.value.status && Reports(m, h, w.obj.value.spec, Some(gw), None);
    assert SameRequest(m.state, w.obj.value.spec, Dotted(gw));
    assert !SameRequest(m.state, Asking(spec, gw, NEW_TABLE), Dotted(gw));
  }

  /** The entry reports the new request as refused while the old route is in place. */
  ghost predicate Stale(s: Setup, w: World, h: Host, spec: Spec, bad: Ip) {
    HistoryOk(w) && w.obj.Some? && w.obj.value.finalizers != [] && !w.obj.value.deleting
    && w.obj.value.spec == Refused(spec, bad)
    && (exists before ::
          w.obj.value.status == Rewritten(before, h, Refused(spec, bad), Some(bad), Some(NOT_ROUTABLE_TEXT)))
    && HeldRoute(s, w, h).Some? && HeldRoute(s, w, h).value.table == OLD_TABLE
  }

  /** A converged node reports no error. */
  lemma NoErrorReported(s: Setup, w: World, h: Host, gw: Ip, asked: Spec, text: string)
    requires Converged(s, w, h, gw) && text != ""
    ensures !StatusMatch(w.obj.value.status, h, asked, Some(gw), Some(text))
  {
    var r := w.obj.value;
    var m :| m in r.status && Reports(m, h, r.spec, Some(gw), None);
    forall e | e in r.status ensures !Reports(e, h, asked, Some(gw), Some(text)) {
      if e.host == h {
        UniqueEntry(r.status, m, e);
      }
    }
  }

  /** Second request: refused, and the old route stays. */
  lemma BadGateway(s: Setup, w: World, h: Host, spec: Spec, bad: Ip, router: Ip)
    requires ValidSetup(s) && Converged(s, w, h, bad) && w.obj.value.spec == First(spec) && Plain(s, h, spec)
    ensures Stale(s, Round(s, Edited(w, Refused(spec, bad)), h, Quiet(Some(router))).world, h, spec, bad)
  {
    var w1 := Edited(w, Refused(spec, bad));
    EditedWorld(s, w, h, Refused(spec, bad));
    NoErrorReported(s, w, h, bad, Refused(spec, bad), NOT_ROUTABLE_TEXT);
    RouterRound(s, w1, h, bad, router);
    ReportedWorld(s, w1, h, bad, Some(NOT_ROUTABLE_TEXT));
  }

  /** What the stale entry says to the third request: unchanged, but not yet reported. */
  lemma StaleLooksUnchanged(s: Setup, w: World, h: Host, spec: Spec, bad: Ip)
    requires Stale(s, w, h, spec, bad)
    ensures !Changed(w.obj.value.status, h, Again(spec), Dotted(bad))
    ensures !StatusMatch(w.obj.value.status, h, Again(spec), Some(bad), None)
  {
    var asked := Refused(spec, bad);
    var before :| w.obj.value.status == Rewritten(before, h, asked, Some(bad), Some(NOT_ROUTABLE_TEXT));
    RewrittenSays(before, h, asked, bad, Some(NOT_ROUTABLE_TEXT), Again(spec), bad, None);
  }

  /** Third request: the gateway is left to the fallback again, and the entry becomes a lie. */
  lemma FallbackLies(s: Setup, w: World, h: Host, spec: Spec, bad: Ip)
    requires ValidSetup(s) && Stale(s, w, h, spec, bad) && Plain(s, h, spec) && bad != ZERO_IP && h in w.live
    ensures Lies(s, Round(s, Edited(w, Again(spec)), h, Quiet(Some(bad))).world, h)
  {
    var w1 := Edited(w, Again(spec));
    EditedWorld(s, w, h, Again(spec));
    StaleLooksUnchanged(s, w, h, spec, bad);
    HeldRound(s, w1, h, Some(bad), bad);
    ReportedLies(s, w1, h, bad);
  }

  /** A report of the new table over a route in the old one is a lie. */
  lemma ReportedLies(s: Setup, w: World, h: Host, gw: Ip)
    requires ValidSetup(s) && HistoryOk(w) && w.obj.Some? && w.obj.value.finalizers != [] && !w.obj.value.deleting
    requires Plain(s, h, w.obj.value.spec) && w.obj.value.spec.table == Some(NEW_TABLE) && gw != ZERO_IP
    requires h in w.live && HeldRoute(s, w, h).Some? && HeldRoute(s, w, h).value.table == OLD_TABLE
    ensures Lies(s, Reported(w, h, gw, None), h)
  {
    var spec := w.obj.value.spec;
    var e := NewEntry(h, spec, Some(gw), None);
    ReportedWorld(s, w, h, gw, None);
    RewrittenSays(w.obj.value.status, h, spec, gw, None, spec, gw, None);
    assert Claims(e) && ClaimedRoute(s.options(h), e).table == NEW_TABLE;
  }

  // ------------------------------------------------------------ the run

  /** A faithful run and one faithful turn more. */
  lemma OneMoreFaithful(s: Setup, net: Network, trust: Trust, ws: seq<World>, turns: seq<Turn>, t: Turn, h: Host)
    returns (us: seq<World>, ts: seq<Turn>)
    requires FaithfulFor(s, net, trust, ws, turns, h)
    requires TurnEnabled(s, ws[|turns|], t) && FaithfulTurn(s, net, trust, ws[|turns|], t, h)
    ensures FaithfulFor(s, net, trust, us, ts, h)
    ensures us == ws + [AfterTurn(s, ws[|turns|], t)] && ts == turns + [t]
  {
    us, ts := OneMoreTurn(s, ws, turns, t);
    forall i | 0 <= i < |ts| ensures FaithfulTurn(s, net, trust, us[i], ts[i], h) {
      if i < |turns| {
        assert FaithfulTurn(s, net, trust, ws[i], turns[i], h);
      }
    }
  }

  /** The user creates the CR, and a first round of the node. */
  lemma CreateAndRound(s: Setup, net: Network, trust: Trust, live: set<Host>, h: Host, spec: Spec, ch: Choices)
    returns (ws: seq<World>, turns: seq<Turn>)
    requires ValidSetup(s) && h in live && Plain(s, h, spec) && (spec.gateway.Dotted? || spec.gateway.EmptyText?)
    requires Mild(trust, ch) && FreshRead(ch) && Answers(net(h, GwQuery(s.options(h), spec)), ch(GATEWAY))
    ensures FaithfulFor(s, net, trust, ws, turns, h)
    ensures ws[|turns|] == Round(s, Created(live, spec), h, ch).world && ws[|turns|].live == live
  {
    var w0, w1 := FirstWorld(live), Created(live, spec);
    CommitHistory(w0, Resource(0, spec, false, [], []));
    assert FaithfulFor(s, net, trust, [w0], [], h);
    ws, turns := OneMoreFaithful(s, net, trust, [w0], [], Meanwhile(Create(spec)), h);
    PlainRoundFaithful(s, net, trust, w1, h, w1.obj.value, ch);
    RunFrame(s, w1, h, AwaitGet, ch);
    ws, turns := OneMoreFaithful(s, net, trust, ws, turns, RoundOf(h, ch), h);
  }

  /** An edit by the user and a round of the node. */
  lemma EditAndRound(s: Setup, net: Network, trust: Trust, ws: seq<World>, turns: seq<Turn>, h: Host, spec: Spec,
                     ch: Choices)
    returns (us: seq<World>, ts: seq<Turn>)
    requires ValidSetup(s) && FaithfulFor(s, net, trust, ws, turns, h)
    requires var w := ws[|turns|];
             HistoryOk(w) && w.obj.Some? && w.obj.value.finalizers != [] && !w.obj.value.deleting && h in w.live
    requires Plain(s, h, spec) && (spec.gateway.Dotted? || spec.gateway.EmptyText?)
    requires Mild(trust, ch) && FreshRead(ch) && Answers(net(h, GwQuery(s.options(h), spec)), ch(GATEWAY))
    ensures FaithfulFor(s, net, trust, us, ts, h)
    ensures us[|ts|] == Round(s, Edited(ws[|turns|], spec), h, ch).world && us[|ts|].live == ws[|turns|].live
  {
    var w1 := Edited(ws[|turns|], spec);
    EditedWorld(s, ws[|turns|], h, spec);
    us, ts := OneMoreFaithful(s, net, trust, ws, turns, Meanwhile(Edit(spec)), h);
    PlainRoundFaithful(s, net, trust, w1, h, w1.obj.value, ch);
    RunFrame(s, w1, h, AwaitGet, ch);
    us, ts := OneMoreFaithful(s, net, trust, us, ts, RoundOf(h, ch), h);
  }

  /** Created, and converged after one round over a direct gateway. */
  lemma ConvergedRun(s: Setup, net: Network, trust: Trust, h: Host, spec: Spec, gw: Ip)
    returns (ws: seq<World>, turns: seq<Turn>)
    requires ValidSetup(s) && Plain(s, h, spec) && net(h, gw).Direct?
    ensures FaithfulFor(s, net, trust, ws, turns, h) && ws[|turns|].live == {h}
    ensures Converged(s, ws[|turns|], h, gw) && ws[|turns|].obj.value.spec == Asking(spec, gw, OLD_TABLE)
    ensures Without(ws[|turns|].obj.value.status, h) == []
  {
    var first := Asking(spec, gw, OLD_TABLE);
    FirstRoundConverges(s, {h}, first, h, Quiet(None), gw);
    ws, turns := CreateAndRound(s, net, trust, {h}, h, first, Quiet(None));
  }

  /** For every node whose fallback leads to a gateway behind a router, and every plain spec, there
      is a run, with GetGw as the network is and every write accepted, that ends with a lie. */
  lemma StatusCanLie(s: Setup, net: Network, trust: Trust, live: set<Host>, h: Host, spec: Spec)
    returns (ws: seq<World>, turns: seq<Turn>)
    requires ValidSetup(s) && !FallbackSound(s, net, h) && h in live && Plain(s, h, spec)
    ensures FaithfulFor(s, net, trust, ws, turns, h) && Lies(s, ws[|turns|], h)
  {
    var bad := net(h, s.options(h).fallback).ip;
    var router := net(h, bad).ip;
    FirstRoundConverges(s, live, First(spec), h, Quiet(Some(bad)), bad);
    ws, turns := CreateAndRound(s, net, trust, live, h, First(spec), Quiet(Some(bad)));
    BadGateway(s, ws[|turns|], h, spec, bad, router);
    ws, turns := EditAndRound(s, net, trust, ws, turns, h, Refused(spec, bad), Quiet(Some(router)));
    FallbackLies(s, ws[|turns|], h, spec, bad);
    ws, turns := EditAndRound(s, net, trust, ws, turns, h, Again(spec), Quiet(Some(bad)));
  }

  /** In no run of the node's faithful rounds does its entry claim what is not so. */
  ghost predicate NeverLies(s: Setup, net: Network, trust: Trust, h: Host) {
    forall ws, turns, i: nat :: FaithfulFor(s, net, trust, ws, turns, h) && i < |ws| ==> !Lies(s, ws[i], h)
  }

  lemma OneLie(s: Setup, net: Network, trust: Trust, h: Host, ws: seq<World>, turns: seq<Turn>)
    requires FaithfulFor(s, net, trust, ws, turns, h) && Lies(s, ws[|turns|], h)
    ensures !NeverLies(s, net, trust, h)
  { }

  lemma SoundNeverLies(s: Setup, net: Network, trust: Trust, h: Host)
    requires ValidSetup(s) && FallbackSound(s, net, h) && Enough(trust)
    ensures NeverLies(s, net, trust, h)
  {
    forall ws, turns, i: nat | FaithfulFor(s, net, trust, ws, turns, h) && i < |ws| ensures !Lies(s, ws[i], h) {
      RunsKeepOwnPart(s, net, trust, ws, turns, h, i);
    }
  }

  /** With accepted status writes and fresh reads, the status is always true iff the fallback does not lead to a
      gateway behind a router. */
  lemma TruthExactly(s: Setup, net: Network, trust: Trust, h: Host, spec: Spec)
    requires ValidSetup(s) && Plain(s, h, spec) && Enough(trust)
    ensures NeverLies(s, net, trust, h) <==> FallbackSound(s, net, h)
  {
    if FallbackSound(s, net, h) {
      SoundNeverLies(s, net, trust, h);
    } else {
      var ws, turns := StatusCanLie(s, net, trust, {h}, h, spec);
      OneLie(s, net, trust, h, ws, turns);
    }
  }
}
