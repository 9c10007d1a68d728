/** What single-call interleaving does not promise: a CR can be gone while a live node still
    holds its route. A registration that has not yet been reported is invisible to the node that
    takes out the last entry. */
module Leak {
  import opened Ipv4
  import opened Optional
  import opened StaticRoutes
  import opened RouteManager
  import opened Reconcile
  import opened Cluster
  import opened FineSteps
  import opened Settling
  import opened Convergence
  import opened Draining

  /** A plain request that every node accepts. */
  ghost predicate PlainRequest(s: Setup, spec: Spec, gw: Ip, ch: Choices) {
    spec.selectors == [] && spec.gateway == Dotted(gw) && gw != ZERO_IP && ParseCIDR(spec.subnet).Some?
    && (forall h :: Unprotected(s.options(h), spec))
    && Undisturbed(ch) && ch(LOOKUP).fail.None? && ch(GATEWAY).fail.None? && ch(GATEWAY).hop.None?
  }

  /** A world in which just `b` is listed, with the rest of the network at rest. */
  ghost predicate OnlyListed(s: Setup, w: World, b: Host, spec: Spec) {
    HistoryOk(w) && w.obj.Some? && w.obj.value.spec == spec && w.obj.value.finalizers != []
    && Listed(w.obj.value.status, b) && Without(w.obj.value.status, b) == []
  }

  lemma OnlyReporter(s: Setup, w: World, b: Host, spec: Spec, gw: Ip, w': World)
    requires w.obj.Some? && w.obj.value.status == [] && w.obj.value.spec == spec
    requires Converged(s, w', b, gw) && RestKept(s, w, b, w')
    ensures OnlyListed(s, w', b, spec)
  {
    var r := w'.obj.value;
    var m :| m in r.status && Reports(m, b, r.spec, Some(gw), None);
  }

  /** Create, and one undisturbed round of `b`. */
  lemma FirstReport(s: Setup, live: set<Host>, b: Host, spec: Spec, gw: Ip, ch: Choices)
    returns (steps: seq<Step>, w: World)
    requires ValidSetup(s) && PlainRequest(s, spec, gw, ch) && b in live
    ensures Leads(s, FirstWorld(live), steps, w)
    ensures OnlyListed(s, w, b, spec) && !w.obj.value.deleting && w.live == live && w.procs == map[]
    ensures forall g :: g != b ==> !Holds(s, w, g)
  {
    var w0, w1, create := FirstWorld(live), Created(live, spec), Other(Create(spec));
    FirstRoundConverges(s, live, spec, b, ch, gw);
    LeadsByOne(s, w0, create, w1);
    var end := Round(s, w1, b, ch).world;
    OnlyReporter(s, w1, b, spec, gw, end);
    w := end.(procs := map[]);
    forall g | g != b ensures !Holds(s, w, g) {
      assert ManagedOf(w, g) == ManagedOf(end, g) == ManagedOf(w1, g);
    }
    RoundIsFineSteps(s, w1, b, ch);
    var round := [Begin(b)] + StepsOf(s, w1, b, AwaitGet, ch);
    LeadsOn(s, w0, [create], w1, round, w);
    steps := [create] + round;
  }

  /** The stages of a round of `a` up to its unreported registration. */
  lemma ReadStages(s: Setup, w: World, a: Host, spec: Spec, gw: Ip, ch: Choices)
    requires ValidSetup(s) && PlainRequest(s, spec, gw, ch)
    requires HistoryOk(w) && w.obj.Some? && w.obj.value.spec == spec && w.obj.value.finalizers != []
    requires !w.obj.value.deleting && !Listed(w.obj.value.status, a)
    ensures var o, r := s.options(a), w.obj.value;
            Answered(s, w, a, AwaitGet, ch) == (w, AObject(r)) && Fetched(o, r) == AwaitGw(r, false)
            && Answered(s, w, a, AwaitGw(r, false), ch) == (w, AHop(None))
            && Resolved(o, r, gw, false) == AwaitIsRegistered(r, gw, TableOf(o, spec))
  { }

  lemma AddStages(s: Setup, w: World, a: Host, spec: Spec, gw: Ip, ch: Choices)
    requires ValidSetup(s) && PlainRequest(s, spec, gw, ch)
    requires HistoryOk(w) && w.obj.Some? && w.obj.value.spec == spec && w.obj.value.finalizers != []
    requires !w.obj.value.deleting && !Listed(w.obj.value.status, a) && !Holds(s, w, a)
    ensures var o, r, table := s.options(a), w.obj.value, TableOf(s.options(a), spec);
            Answered(s, w, a, AwaitGet, ch) == (w, AObject(r))
            && Advance(o, AwaitGet, AObject(r)) == AwaitGw(r, false)
            && Answered(s, w, a, AwaitGw(r, false), ch) == (w, AHop(None))
            && Advance(o, AwaitGw(r, false), AHop(None)) == AwaitIsRegistered(r, gw, table)
            && Answered(s, w, a, AwaitIsRegistered(r, gw, table), ch) == (w, ABool(false))
            && Advance(o, AwaitIsRegistered(r, gw, table), ABool(false)) ==
               AwaitRegister(r, gw, Route(ParseCIDR(spec.subnet).value, gw, table))
  {
    ReadStages(s, w, a, spec, gw, ch);
  }

  lemma RegisterHolds(s: Setup, w: World, a: Host, r: Resource, gw: Ip, route: Route, ch: Choices)
    requires ValidSetup(s) && !Holds(s, w, a) && Undisturbed(ch)
    ensures var w' := Answered(s, w, a, AwaitRegister(r, gw, route), ch).0;
            Holds(s, w', a) && w' == w.(managed := w'.managed)
            && forall g :: g != a ==> ManagedOf(w', g) == ManagedOf(w, g)
  { }

  lemma Unlisted(s: Setup, w: World, a: Host, b: Host, spec: Spec)
    requires OnlyListed(s, w, b, spec) && a != b
    ensures !Listed(w.obj.value.status, a)
  {
    forall e | e in w.obj.value.status ensures e.host != a {
      WithoutMember(w.obj.value.status, b, e);
    }
  }

  /** The world with one round in flight. */
  function InFlight(w: World, a: Host, p: Proc): World {
    w.(procs := map[][a := p])
  }

  /** One stage on, if that is what the answer leads to. */
  lemma InFlightStep(s: Setup, w: World, a: Host, p: Proc, ch: Choices, steps: seq<Step>, start: World, q: Proc)
    returns (more: seq<Step>)
    requires !p.Done? && Leads(s, start, steps, InFlight(w, a, p))
    requires q == Advance(s.options(a), p, Answered(s, w, a, p, ch).1)
    ensures Leads(s, start, more, InFlight(Answered(s, w, a, p, ch).0, a, q))
  {
    var w' := Answered(s, w, a, p, ch).0;
    StageStep(s, w, a, p, ch, map[]);
    more := steps + [Proceed(a, ch(Rank(p)))];
    LeadsOneMore(s, start, steps, InFlight(w, a, p), Proceed(a, ch(Rank(p))), InFlight(w', a, q));
  }

  /** A round of `a` up to its registration. */
  lemma Unregistered(s: Setup, w: World, a: Host, spec: Spec, gw: Ip, ch: Choices)
    returns (steps: seq<Step>, p: Proc)
    requires ValidSetup(s) && PlainRequest(s, spec, gw, ch) && a in w.live && w.procs == map[]
    requires HistoryOk(w) && w.obj.Some? && w.obj.value.spec == spec && w.obj.value.finalizers != []
    requires !w.obj.value.deleting && !Listed(w.obj.value.status, a) && !Holds(s, w, a)
    ensures p.AwaitRegister? && Leads(s, w, steps, InFlight(w, a, p))
  {
    var r, table := w.obj.value, TableOf(s.options(a), spec);
    p := AwaitRegister(r, gw, Route(ParseCIDR(spec.subnet).value, gw, table));
    AddStages(s, w, a, spec, gw, ch);
    LeadsByOne(s, w, Begin(a), InFlight(w, a, AwaitGet));
    steps := InFlightStep(s, w, a, AwaitGet, ch, [Begin(a)], w, AwaitGw(r, false));
    steps := InFlightStep(s, w, a, AwaitGw(r, false), ch, steps, w, AwaitIsRegistered(r, gw, table));
    steps := InFlightStep(s, w, a, AwaitIsRegistered(r, gw, table), ch, steps, w, p);
  }

  /** A round of `a` up to the moment between its registration and its report. */
  lemma Unreported(s: Setup, w: World, a: Host, b: Host, spec: Spec, gw: Ip, ch: Choices)
    returns (steps: seq<Step>, w': World)
    requires ValidSetup(s) && PlainRequest(s, spec, gw, ch) && a != b && a in w.live && w.procs == map[]
    requires OnlyListed(s, w, b, spec) && !w.obj.value.deleting && !Holds(s, w, a)
    ensures Leads(s, w, steps, w')
    ensures Holds(s, w', a) && w' == w.(managed := w'.managed, procs := w'.procs) && b !in w'.procs
  {
    var p;
    Unlisted(s, w, a, b, spec);
    steps, p := Unregistered(s, w, a, spec, gw, ch);
    RegisterHolds(s, w, a, p.w, p.gw, p.route, ch);
    var q := Advance(s.options(a), p, Answered(s, w, a, p, ch).1);
    steps := InFlightStep(s, w, a, p, ch, steps, w, q);
    w' := InFlight(Answered(s, w, a, p, ch).0, a, q);
  }

  lemma AfterUserDelete(s: Setup, w: World, b: Host, spec: Spec, gw: Ip, ch: Choices, w': World)
    requires ValidSetup(s) && PlainRequest(s, spec, gw, ch) && OnlyListed(s, w, b, spec)
    requires StepsTo(s, w, Other(Delete), w')
    ensures Drainable(w') && CleanRound(s, w', b, ch) && |w'.obj.value.status| == 1 && Listed(w'.obj.value.status, b)
    ensures w'.managed == w.managed && w'.live == w.live && w'.procs == w.procs
  {
    OutsideStore(s, w, Delete);
    WithoutShrinks(w.obj.value.status, b);
  }

  lemma LastRound(s: Setup, w: World, a: Host, b: Host, ch: Choices)
    requires ValidSetup(s) && Drainable(w) && CleanRound(s, w, b, ch) && a != b && Holds(s, w, a)
    requires |w.obj.value.status| == 1 && Listed(w.obj.value.status, b)
    ensures var w' := Round(s, w, b, ch).world.(procs := w.procs);
            w'.obj.None? && w'.live == w.live && Holds(s, w', a)
  {
    DrainStep(s, w, b, ch);
    assert ManagedOf(Round(s, w, b, ch).world, a) == ManagedOf(w, a);
  }

  /** The user deletes the CR, and a round of `b` takes out the last entry. */
  lemma LastEntryOut(s: Setup, w: World, a: Host, b: Host, spec: Spec, gw: Ip, ch: Choices)
    returns (steps: seq<Step>, w': World)
    requires ValidSetup(s) && PlainRequest(s, spec, gw, ch) && a != b && b in w.live && b !in w.procs
    requires OnlyListed(s, w, b, spec) && Holds(s, w, a)
    ensures Leads(s, w, steps, w')
    ensures w'.obj.None? && w'.live == w.live && Holds(s, w', a)
  {
    var w1 := AfterStep(s, w, Other(Delete));
    LeadsByOne(s, w, Other(Delete), w1);
    AfterUserDelete(s, w, b, spec, gw, ch, w1);
    LastRound(s, w1, a, b, ch);
    RoundIsFineSteps(s, w1, b, ch);
    w' := Round(s, w1, b, ch).world.(procs := w1.procs);
    var round := [Begin(b)] + StepsOf(s, w1, b, AwaitGet, ch);
    steps := [Other(Delete)] + round;
    LeadsOn(s, w, [Other(Delete)], w1, round, w');
  }

  /** For every two nodes there is a run, call by call and without any failure, at whose end the
      CR is gone and a live node's manager still holds its route. */
  lemma GoneButHeld(s: Setup, live: set<Host>, a: Host, b: Host, spec: Spec, gw: Ip, ch: Choices)
    returns (ws: seq<World>, steps: seq<Step>)
    requires ValidSetup(s) && PlainRequest(s, spec, gw, ch) && a != b && a in live && b in live
    ensures IsRun(s, ws, steps)
    ensures ws[|steps|].obj.None? && a in ws[|steps|].live && Holds(s, ws[|steps|], a)
  {
    var steps1, w1 := FirstReport(s, live, b, spec, gw, ch);
    var steps2, w2 := Unreported(s, w1, a, b, spec, gw, ch);
    var steps3, w3 := LastEntryOut(s, w2, a, b, spec, gw, ch);
    LeadsOn(s, FirstWorld(live), steps1, w1, steps2, w2);
    LeadsOn(s, FirstWorld(live), steps1 + steps2, w2, steps3, w3);
    steps := steps1 + steps2 + steps3;
    ws := LeadsIsChain(s, FirstWorld(live), steps, w3);
  }
}
