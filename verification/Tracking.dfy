/** How a round's working copy relates to the stored version it is based on. Both grains of the
    protocol rest on this. */
module Tracking {
  import opened Ipv4
  import opened Optional
  import opened StaticRoutes
  import opened Reconcile

  /** A list some write of `h` may store over `base`: hosts stay distinct, and every other
      host's entries are untouched and in order. */
  ghost predicate OwnEdit(h: Host, base: seq<Entry>, status: seq<Entry>) {
    Without(status, h) == Without(base, h) && Distinct(status)
  }

  ghost predicate SameObject(base: Resource, w: Resource) {
    w.version == base.version && w.spec == base.spec && w.deleting == base.deleting
  }

  /** The working copy of a stage. */
  function Copy(p: Proc): Resource
    requires !p.Done? && !p.AwaitGet?
  {
    p.w
  }

  ghost predicate Tracks(h: Host, base: Resource, p: Proc)
    requires !p.Done? && !p.AwaitGet?
  {
    var w := Copy(p);
    SameObject(base, w) &&
    match p
    case AwaitList(_) => w == base
    case AwaitGw(_, _) => w == base
    case AwaitFinalizer(_, _, _) =>
      w.status == base.status && w.finalizers != [] && base.finalizers == [] && !base.deleting
    case AwaitIsRegistered(_, _, _) => w == base && base.finalizers != [] && !base.deleting
    case AwaitRegister(_, _, _) => w == base && base.finalizers != [] && !base.deleting
    case AwaitReport(_, _, _) => OwnEdit(h, base.status, w.status) && Listed(w.status, h)
    case AwaitDeregister(_, _) => OwnEdit(h, base.status, w.status)
    case AwaitDelStatus(_, _) => OwnEdit(h, base.status, w.status)
    case AwaitClear(_, _) => w.status == base.status == [] && w.finalizers == []
  }

  ghost predicate TracksOrEnds(h: Host, base: Resource, p: Proc) {
    p.Done? || (!p.AwaitGet? && Tracks(h, base, p))
  }

  lemma ReportTracks(h: Host, base: Resource, w: Resource, res: Result, err: Option<string>)
    requires SameObject(base, w) && OwnEdit(h, base.status, w.status) && Listed(w.status, h)
    ensures TracksOrEnds(h, base, AwaitReport(w, res, err))
  { }

  lemma DeregisterTracks(h: Host, base: Resource, w: Resource, changed: bool)
    requires SameObject(base, w) && OwnEdit(h, base.status, w.status)
    ensures TracksOrEnds(h, base, AwaitDeregister(w, changed))
  { }

  lemma FinishTracks(o: Options, base: Resource, report: bool, w: Resource, gateway: Option<Ip>, res: Result,
                     err: Option<string>)
    requires SameObject(base, w) && w.status == base.status && Distinct(base.status)
    ensures TracksOrEnds(o.host, base, Finish(o, report, w, gateway, res, err))
  {
    var serr := StatusError(res, err);
    var r := w.(status := Rewritten(w.status, o.host, w.spec, gateway, serr));
    RewrittenLaws(w.status, o.host, w.spec, gateway, serr);
    ReportTracks(o.host, base, r, res, err);
    DeregisterTracks(o.host, base, w, false);
  }

  lemma SelectTracks(o: Options, base: Resource, noLonger: bool)
    requires Distinct(base.status)
    ensures TracksOrEnds(o.host, base, AfterSelect(o, base, noLonger))
  {
    FinishTracks(o, base, !noLonger, base, Some(ZERO_IP), OverlapsProtected, None);
    FinishTracks(o, base, !noLonger, base, None, InvalidGatewayError, None);
  }

  lemma FetchedTracks(o: Options, base: Resource)
    requires Distinct(base.status)
    ensures TracksOrEnds(o.host, base, Fetched(o, base))
  {
    SelectTracks(o, base, false);
    FinishTracks(o, base, true, base, Some(ZERO_IP), WrongSelectorErr, None);
  }

  lemma BranchTracks(o: Options, base: Resource, gw: Ip, noLonger: bool, changed: bool, listed: bool)
    requires Distinct(base.status)
    ensures TracksOrEnds(o.host, base, Branch(o, base, gw, noLonger, changed, listed))
  {
    WithoutTwice(base.status, o.host);
    WithoutDistinct(base.status, o.host);
    var w := base.(status := Without(base.status, o.host));
    DeregisterTracks(o.host, base, w, changed);
  }

  /** The base after an answer: an object read or written becomes the new one. */
  function NewBase(base: Resource, a: Answer): Resource {
    if a.AObject? then a.resource else base
  }

  /** What the stored object becomes under a stage's accepted write. */
  ghost predicate Stored(base: Resource, p: Proc, r: Resource)
    requires !p.Done?
  {
    match p
    case AwaitFinalizer(w, _, _) => SameObject(base, r.(version := base.version)) && r.status == base.status
      && r.finalizers == w.finalizers
    case AwaitClear(w, _) => SameObject(base, r.(version := base.version)) && r.status == base.status
      && r.finalizers == w.finalizers
    case AwaitReport(w, _, _) => SameObject(base, r.(version := base.version)) && r.status == w.status
      && r.finalizers == base.finalizers
    case AwaitDelStatus(w, _) => SameObject(base, r.(version := base.version)) && r.status == w.status
      && r.finalizers == base.finalizers
    case _ => true
  }

  /** Tracking survives every exchange: reads, accepted writes and refused ones. */
  lemma AdvanceTracks(o: Options, base: Resource, p: Proc, a: Answer)
    requires !p.Done? && Fits(Pending(o, p), a)
    requires !p.AwaitGet? ==> Tracks(o.host, base, p) && Distinct(base.status)
    requires a.AObject? ==> Distinct(a.resource.status) && Stored(base, p, a.resource)
    ensures TracksOrEnds(o.host, NewBase(base, a), Advance(o, p, a))
  {
    match p
    case AwaitGet =>
      if a.AObject? {
        FetchedTracks(o, a.resource);
      }
    case AwaitList(w) =>
      if a.AError? {
        FinishTracks(o, base, true, w, Some(ZERO_IP), NodeGetError, Some(a.text));
      } else {
        SelectTracks(o, base, true);
        SelectTracks(o, base, false);
      }
    case AwaitGw(w, noLonger) => GwTracks(o, base, noLonger, a);
    case AwaitFinalizer(w, gw, table) =>
      if a.AError? {
        FinishTracks(o, base, true, w, Some(gw), SetFinalizerError, Some(a.text));
      }
    case AwaitIsRegistered(w, gw, table) =>
      FinishTracks(o, base, true, w, Some(gw), Finished, None);
      FinishTracks(o, base, true, w, Some(gw), ParseSubnetError, None);
    case AwaitRegister(w, gw, _) =>
      FinishTracks(o, base, true, w, Some(gw), Finished, None);
      if a.reply.Failed? {
        FinishTracks(o, base, true, w, Some(gw), RegisterRouteError, Some(a.reply.text));
      }
    case AwaitReport(w, _, _) =>
    case AwaitDeregister(w, _) =>
    case AwaitDelStatus(w, _) =>
    case AwaitClear(w, _) =>
  }

  lemma GwTracks(o: Options, base: Resource, noLonger: bool, a: Answer)
    requires Distinct(base.status) && (a.AHop? || a.AError?)
    ensures TracksOrEnds(o.host, base, Advance(o, AwaitGw(base, noLonger), a))
  {
    if a.AError? {
      FinishTracks(o, base, !noLonger, base, None, RouteGetError, Some(a.text));
    } else if base.spec.gateway.Dotted? {
      FinishTracks(o, base, !noLonger, base, Some(base.spec.gateway.ip), GatewayNotDirectlyRoutableError, None);
      var w, gw := base, base.spec.gateway.ip;
      BranchTracks(o, base, gw, noLonger, Changed(w.status, o.host, w.spec, Dotted(gw)), Listed(w.status, o.host));
    } else {
      FinishTracks(o, base, !noLonger, base, None, NoResult, None);
      if a.hop.Some? {
        var w, gw := base, a.hop.value;
        BranchTracks(o, base, gw, noLonger, Changed(w.status, o.host, w.spec, Dotted(gw)), Listed(w.status, o.host));
      }
    }
  }
}
