/** What a round returns. The error is that of the last call that failed, unless a later stage has
    replaced it; a round asks to be repeated without an error iff it found its request changed. */
module Results {
  import opened Ipv4
  import opened Optional
  import opened StaticRoutes
  import opened Reconcile
  import opened Cluster
  import opened Truth
  import opened Settling
  import opened Convergence
  import opened Draining

  // ------------------------------------------------------------ errors

  /** The text with which a call was refused. */
  function Failure(e: Exchange): Option<string> {
    match e.answer
    case AError(text) => Some(text)
    case AReply(reply) => if reply.Failed? then Some(reply.text) else None
    case _ => None
  }

  /** Call `i` failed, and nothing later replaced that outcome: no later call failed, and none began
      a deletion, which answers for itself. */
  predicate Stands(es: seq<Exchange>, i: nat)
    requires i < |es|
  {
    Failure(es[i]).Some?
    && forall j :: i < j < |es| ==> Failure(es[j]).None? && !es[j].call.CDeregister?
  }

  /** An error is the text of the standing failure, if there is one. */
  ghost predicate ErrorOf(es: seq<Exchange>, err: Option<string>) {
    (err.Some? <==> exists i :: 0 <= i < |es| && Stands(es, i))
    && forall i :: 0 <= i < |es| && Stands(es, i) ==> err == Failure(es[i])
  }

  lemma ErrorStep(es: seq<Exchange>, err: Option<string>, e: Exchange)
    requires ErrorOf(es, err)
    ensures ErrorOf(es + [e], if Failure(e).Some? then Failure(e) else if e.call.CDeregister? then None else err)
  {
    var more := es + [e];
    if Failure(e).Some? {
      assert Stands(more, |es|);
    } else if !e.call.CDeregister? {
      forall i | 0 <= i < |es| ensures Stands(more, i) <==> Stands(es, i) {
        assert more[|es|] == e;
        assert Stands(es, i) ==> forall j :: i < j < |more| ==> Failure(more[j]).None? && !more[j].call.CDeregister?;
        assert Stands(more, i) ==> forall j :: i < j < |es| ==> more[j] == es[j];
      }
    }
    forall i | 0 <= i < |es| && Stands(more, i) ensures Failure(e).None? && !e.call.CDeregister? {
      assert more[|es|] == e;
    }
  }

  /** The error a stage carries along. */
  function Carried(p: Proc): Option<string> {
    match p
    case AwaitReport(_, _, err) => err
    case Done(_, err) => err
    case _ => None
  }

  /** What a stage makes of the error so far. A withdrawal has not seen a failure, and a deferred
      deletion ignores what came before. */
  lemma CarriedStep(o: Options, p: Proc, a: Answer)
    requires !p.Done? && Fits(Pending(o, p), a)
    ensures var e, q := Exchange(Pending(o, p), a), Advance(o, p, a);
            q.AwaitDeregister?
            || Carried(q) == if Failure(e).Some? then Failure(e) else if e.call.CDeregister? then None else Carried(p)
  { }

  /** The error law on the way: it holds at every stage but where a deletion is about to begin. */
  lemma {:induction false} ErrorAt(o: Options, es: seq<Exchange>, p: Proc)
    requires Follow(o, es) == Some(p)
    ensures !p.AwaitDeregister? ==> ErrorOf(es, Carried(p))
    decreases |es|
  {
    if es != [] {
      var init, e := es[..|es| - 1], es[|es| - 1];
      assert es == init + [e];
      var q := FollowBack(o, AwaitGet, init, e, p);
      ErrorAt(o, init, q);
      CarriedStep(o, q, e.answer);
      if q.AwaitDeregister? {
        DeletionBegins(init, e);
      } else {
        ErrorStep(init, Carried(q), e);
      }
    }
  }

  /** The stage before the last exchange. */
  lemma {:induction false} FollowBack(o: Options, p: Proc, es: seq<Exchange>, e: Exchange, q: Proc) returns (r: Proc)
    requires FollowFrom(o, p, es + [e]) == Some(q)
    ensures FollowFrom(o, p, es) == Some(r) && !r.Done?
    ensures Pending(o, r) == e.call && Fits(e.call, e.answer) && Advance(o, r, e.answer) == q
    decreases |es|
  {
    if es == [] {
      assert [e][1..] == [];
      r := p;
    } else {
      assert (es + [e])[1..] == es[1..] + [e];
      r := FollowBack(o, Advance(o, p, es[0].answer), es[1..], e, q);
    }
  }

  /** The deregistration answers for itself. */
  lemma DeletionBegins(es: seq<Exchange>, e: Exchange)
    requires e.call.CDeregister?
    ensures ErrorOf(es + [e], Failure(e))
  {
    var more := es + [e];
    forall i | 0 <= i < |es| ensures !Stands(more, i) {
      assert more[|es|] == e;
    }
    assert Failure(e).Some? ==> Stands(more, |es|);
  }

  /** The error law, for every environment: a complete round ends with an error iff some call of it
      was refused and nothing later replaced the outcome, and with that call's text. */
  lemma RoundError(o: Options, es: seq<Exchange>, res: Result, err: Option<string>)
    requires Follow(o, es) == Some(Done(res, err))
    ensures ErrorOf(es, err)
  {
    ErrorAt(o, es, Done(res, err));
  }

  /** The same for the rounds of the protocol, with any reads and answers. */
  lemma WholeRoundError(s: Setup, w: World, h: Host, ch: Choices)
    ensures var round := Round(s, w, h, ch); round.last.Done? && ErrorOf(round.exchanges, round.last.err)
  {
    var round := Round(s, w, h, ch);
    RoundIsProcessRun(s, w, h, ch);
    RoundError(s.options(h), round.exchanges, round.last.res, round.last.err);
  }

  // ------------------------------------------------------------ the request to be repeated

  /** Some entry of the host asks for something else than the spec with this gateway. */
  ghost predicate Differs(status: seq<Entry>, host: Host, spec: Spec, gw: Ip) {
    exists e :: e in status && e.host == host
                && !(e.state.subnet == spec.subnet && e.state.gateway == Dotted(gw)
                     && e.state.table == spec.table && e.state.selectors == spec.selectors)
  }

  /** The round gets as far as a gateway for the object it has read, and finds the request changed. */
  ghost predicate FindsChange(s: Setup, w: World, h: Host, ch: Choices) {
    ch(GET).fail.None? && Read(w, ch(GET).seen).AObject? &&
    var o, r := s.options(h), Read(w, ch(GET).seen).resource;
    (Selected(o, r.spec, ch) || (Deselected(o, r.spec, ch) && Listed(r.status, h)))
    && FindsChangeAt(s, h, r, ch)
  }

  ghost predicate FindsChangeAt(s: Setup, h: Host, r: Resource, ch: Choices) {
    Unprotected(s.options(h), r.spec) && Resolvable(r.spec, ch(GATEWAY))
    && Differs(r.status, h, r.spec, HopOf(r.spec, ch(GATEWAY)))
  }

  /** The stage belongs to a round that has found its request changed. */
  predicate Changes(p: Proc) {
    match p
    case AwaitDeregister(_, changed) => changed
    case AwaitDelStatus(_, changed) => changed
    case AwaitClear(_, changed) => changed
    case Done(res, _) => res == UpdateFinished
    case AwaitReport(_, res, _) => res == UpdateFinished
    case _ => false
  }

  lemma FinishChanges(o: Options, report: bool, w: Resource, gateway: Option<Ip>, res: Result, err: Option<string>)
    requires res != UpdateFinished
    ensures !Changes(Finish(o, report, w, gateway, res, err))
  { }

  /** Past the gateway nothing changes that any more. */
  lemma ChangesKept(o: Options, p: Proc, a: Answer)
    requires !p.Done? && Rank(p) < GATEWAY && Fits(Pending(o, p), a)
    requires p.AwaitReport? ==> p.res != UpdateFinished
    ensures Changes(Advance(o, p, a)) == Changes(p)
    ensures Advance(o, p, a).AwaitReport? ==> Advance(o, p, a).res != UpdateFinished
  { }

  lemma {:induction false} LateResult(s: Setup, w: World, h: Host, p: Proc, ch: Choices)
    requires Rank(p) < GATEWAY && (p.AwaitReport? ==> p.res != UpdateFinished)
    ensures RunToEnd(s, w, h, p, ch).last.Done?
    ensures RunToEnd(s, w, h, p, ch).last.res == UpdateFinished <==> Changes(p)
    decreases Rank(p)
  {
    if !p.Done? {
      var (w', a) := Answered(s, w, h, p, ch);
      ChangesKept(s.options(h), p, a);
      LateResult(s, w', h, Advance(s.options(h), p, a), ch);
    }
  }

  lemma BranchChanges(o: Options, r: Resource, gw: Ip, noLonger: bool)
    ensures var q := Resolved(o, r, gw, noLonger);
            !q.AwaitReport? && (Changes(q) <==> Differs(r.status, o.host, r.spec, gw))
  {
    if Differs(r.status, o.host, r.spec, gw) {
      var e :| e in r.status && e.host == o.host && !SameRequest(e.state, r.spec, Dotted(gw));
    }
  }

  lemma GatewayResult(s: Setup, w: World, h: Host, r: Resource, noLonger: bool, ch: Choices)
    requires ValidSetup(s) && (r.spec.gateway.Dotted? || r.spec.gateway.EmptyText?)
    ensures var end := RunToEnd(s, w, h, AwaitGw(r, noLonger), ch).last;
            end.Done? && (end.res == UpdateFinished <==>
                          Resolvable(r.spec, ch(GATEWAY)) && Differs(r.status, h, r.spec, HopOf(r.spec, ch(GATEWAY))))
  {
    var o, p := s.options(h), AwaitGw(r, noLonger);
    var (w', a) := Answered(s, w, h, p, ch);
    var q := Advance(o, p, a);
    OneStep(s, w, h, p, ch, w', q);
    if Resolvable(r.spec, ch(GATEWAY)) {
      var gw := HopOf(r.spec, ch(GATEWAY));
      assert q == Resolved(o, r, gw, noLonger);
      BranchChanges(o, r, gw, noLonger);
    } else {
      UnresolvedStage(o, r, noLonger, a);
    }
    LateResult(s, w', h, q, ch);
  }

  lemma UnresolvedStage(o: Options, r: Resource, noLonger: bool, a: Answer)
    requires a.AHop? || a.AError?
    requires a.AHop? ==> if r.spec.gateway.Dotted? then a.hop.Some? else a.hop.None?
    ensures var q := GatewayAnswered(o, r, noLonger, a);
            !Changes(q) && (q.AwaitReport? ==> q.res != UpdateFinished)
  { }

  lemma SelectResult(s: Setup, w: World, h: Host, r: Resource, noLonger: bool, ch: Choices)
    requires ValidSetup(s)
    ensures var end := RunToEnd(s, w, h, AfterSelect(s.options(h), r, noLonger), ch).last;
            end.Done? && (end.res == UpdateFinished <==> FindsChangeAt(s, h, r, ch))
  {
    var o := s.options(h);
    var q := AfterSelect(o, r, noLonger);
    if q.AwaitGw? {
      GatewayResult(s, w, h, r, noLonger, ch);
    } else {
      LateResult(s, w, h, q, ch);
    }
  }

  lemma FetchedResult(s: Setup, w: World, h: Host, r: Resource, ch: Choices)
    requires ValidSetup(s)
    ensures var end := RunToEnd(s, w, h, Fetched(s.options(h), r), ch).last;
            end.Done? && (end.res == UpdateFinished <==>
              (Selected(s.options(h), r.spec, ch) || (Deselected(s.options(h), r.spec, ch) && Listed(r.status, h)))
              && FindsChangeAt(s, h, r, ch))
  {
    var o := s.options(h);
    var p := Fetched(o, r);
    SelectResult(s, w, h, r, false, ch);
    SelectResult(s, w, h, r, true, ch);
    if p.AwaitList? {
      ReadStep(s, w, h, p, ch);
      var q := Advance(o, p, Answered(s, w, h, p, ch).1);
      if ch(LIST).fail.Some? { LateResult(s, w, h, q, ch); }
    } else if r.spec.selectors != [] {
      LateResult(s, w, h, p, ch);
    }
  }

  /** A round asks to be repeated without an error iff it has found its request changed; with any
      reads and answers. */
  lemma RepeatsExactlyIfChanged(s: Setup, w: World, h: Host, ch: Choices)
    requires ValidSetup(s)
    ensures Round(s, w, h, ch).last.Done?
    ensures Round(s, w, h, ch).last.res == UpdateFinished <==> FindsChange(s, w, h, ch)
  {
    var a := Answered(s, w, h, AwaitGet, ch).1;
    OneStep(s, w, h, AwaitGet, ch, w, Advance(s.options(h), AwaitGet, a));
    if a.AObject? {
      FetchedResult(s, w, h, a.resource, ch);
    }
  }

  /** And that is how convergence is driven: a promising round asks for another one iff the node is
      not converged after it. */
  lemma RepeatsUntilConverged(s: Setup, net: Network, w: World, h: Host, ch: Choices, gw: Ip)
    requires ValidSetup(s) && OwnPart(s, net, w, h) && Promising(s, w, h, ch, gw) && RealHop(net, h, gw)
    ensures Round(s, w, h, ch).last.Done?
    ensures Round(s, w, h, ch).last.res == UpdateFinished <==> !Converged(s, Round(s, w, h, ch).world, h, gw)
  {
    var r := w.obj.value;
    RepeatsExactlyIfChanged(s, w, h, ch);
    if Changed(r.status, h, r.spec, Dotted(gw)) {
      ChangedWithdraws(s, net, w, h, ch, gw);
      var e :| e in r.status && e.host == h && !SameRequest(e.state, r.spec, Dotted(gw));
      assert Differs(r.status, h, r.spec, gw);
    } else {
      UnchangedConverges(s, net, w, h, ch, gw);
      forall e | e in r.status && e.host == h ensures SameRequest(e.state, r.spec, Dotted(gw)) { }
    }
  }
}
