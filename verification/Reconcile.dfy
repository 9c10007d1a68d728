/** One reconcile round of one node, as a process that makes one call at a time.
    `Pending` is the call a process waits for and `Advance` what it does with the answer;
    everything between two calls is local. */
module Reconcile {
  import opened Ipv4
  import opened Optional
  import opened StaticRoutes
  import opened RouteManager
  import opened Protection

  /** What a node's operator is configured with. `requirementOk` is the label library's verdict
      on one selector requirement. */
  datatype Options = Options(
    name: string,
    host: Host,
    table: int,
    protecteds: seq<IPNet>,
    fallback: Ip,
    requirementOk: Requirement -> bool)

  datatype Result =
    | NoResult
    | CrNotFound | NodeNotFound | OverlapsProtected | AlreadyDeleted | DeletionFinished | UpdateFinished | Finished
    | CrGetError | WrongSelectorErr | NodeGetError | DeRegisterError | DelStatusUpdateError | EmptyFinalizerError
    | SetFinalizerError | InvalidGatewayError | GatewayNotDirectlyRoutableError | RouteGetError
    | ParseSubnetError | RegisterRouteError | AddStatusUpdateError

  const OVERLAP_TEXT := "given subnet overlaps with some protected subnet"
  const NOT_ROUTABLE_TEXT := "given gateway IP is not directly routable, cannot setup the route"
  const HOSTNAME_LABEL := "kubernetes.io/hostname"

  datatype Call =
    | CGet
    | CList(selectors: seq<Requirement>)
    | CGetGw(ip: Ip)
    | CUpdate(resource: Resource)
    | CStatusUpdate(resource: Resource)
    | CIsRegistered(name: string)
    | CRegister(name: string, route: Route)
    | CDeregister(name: string)

  datatype Answer =
    | AObject(resource: Resource)
    | AMissing
    | AError(text: string)
    | ANodes(count: nat)
    | AHop(hop: Option<Ip>)
    | ABool(yes: bool)
    | AReply(reply: Reply)

  predicate Fits(c: Call, a: Answer) {
    match c
    case CGet => a.AObject? || a.AMissing? || a.AError?
    case CList(_) => a.ANodes? || a.AError?
    case CGetGw(_) => a.AHop? || a.AError?
    case CUpdate(_) => a.AObject? || a.AError?
    case CStatusUpdate(_) => a.AObject? || a.AError?
    case CIsRegistered(_) => a.ABool?
    case CRegister(_, _) => a.AReply? && !a.reply.NotFound?
    case CDeregister(_) => a.AReply?
  }

  /** Where a round stands. `w` is the working copy of the fetched resource. */
  datatype Proc =
    | AwaitGet
    | AwaitList(w: Resource)
    | AwaitGw(w: Resource, noLonger: bool)
    | AwaitFinalizer(w: Resource, gw: Ip, table: int)
    | AwaitIsRegistered(w: Resource, gw: Ip, table: int)
    | AwaitRegister(w: Resource, gw: Ip, route: Route)
    | AwaitReport(w: Resource, res: Result, err: Option<string>)
    | AwaitDeregister(w: Resource, changed: bool)
    | AwaitDelStatus(w: Resource, changed: bool)
    | AwaitClear(w: Resource, changed: bool)
    | Done(res: Result, err: Option<string>)

  // The stages in call order; a round only moves down.
  const GET: nat := 10
  const LIST: nat := 9
  const GATEWAY: nat := 8
  const ADD_FINALIZER: nat := 7
  const LOOKUP: nat := 6
  const REGISTER: nat := 5
  const REPORT: nat := 4
  const DEREGISTER: nat := 3
  const DEL_STATUS: nat := 2
  const CLEAR: nat := 1

  function Rank(p: Proc): nat {
    match p
    case AwaitGet => GET
    case AwaitList(_) => LIST
    case AwaitGw(_, _) => GATEWAY
    case AwaitFinalizer(_, _, _) => ADD_FINALIZER
    case AwaitIsRegistered(_, _, _) => LOOKUP
    case AwaitRegister(_, _, _) => REGISTER
    case AwaitReport(_, _, _) => REPORT
    case AwaitDeregister(_, _) => DEREGISTER
    case AwaitDelStatus(_, _) => DEL_STATUS
    case AwaitClear(_, _) => CLEAR
    case Done(_, _) => 0
  }

  // ------------------------------------------------------------ selectors and gateways

  /** The CR's selectors together with the node's own hostname requirement. */
  function AllSelectors(o: Options, selectors: seq<Requirement>): seq<Requirement> {
    selectors + [Requirement(HOSTNAME_LABEL, OpIn, [o.host])]
  }

  predicate Usable(o: Options, r: Requirement) {
    !r.operator.OpOther? && o.requirementOk(r)
  }

  ghost predicate SelectorsUsable(o: Options, selectors: seq<Requirement>) {
    forall r :: r in AllSelectors(o, selectors) ==> Usable(o, r)
  }

  /** The address GetGw is asked about: the gateway of the spec, or the fallback. */
  function GwQuery(o: Options, spec: Spec): Ip {
    if spec.gateway.Dotted? then spec.gateway.ip else o.fallback
  }

  function TableOf(o: Options, spec: Spec): int {
    if spec.table.Some? then spec.table.value else o.table
  }

  // ------------------------------------------------------------ local stages

  /** The error the deferred report puts into the status. */
  function StatusError(res: Result, err: Option<string>): Option<string> {
    if res == OverlapsProtected then Some(OVERLAP_TEXT)
    else if res == GatewayNotDirectlyRoutableError then Some(NOT_ROUTABLE_TEXT)
    else err
  }

  /** The deferred block once the report is settled. */
  function AfterReport(w: Resource, res: Result, err: Option<string>): Proc {
    if w.deleting then AwaitDeregister(w, false) else Done(res, err)
  }

  /** The deferred block. */
  ghost function Finish(o: Options, report: bool, w: Resource, gateway: Option<Ip>, res: Result,
                        err: Option<string>): (q: Proc)
    ensures Rank(q) <= REPORT
  {
    if !report then Done(res, err)
    else if StatusMatch(w.status, o.host, w.spec, gateway, StatusError(res, err)) then AfterReport(w, res, err)
    else AwaitReport(w.(status := Rewritten(w.status, o.host, w.spec, gateway, StatusError(res, err))), res, err)
  }

  /** After the selectors: protection, then the gateway. */
  ghost function AfterSelect(o: Options, w: Resource, noLonger: bool): (q: Proc)
    ensures Rank(q) <= GATEWAY
  {
    if Protected(ParseCIDR(w.spec.subnet), o.protecteds) then
      Finish(o, !noLonger, w, Some(ZERO_IP), OverlapsProtected, None)
    else if !w.spec.gateway.Dotted? && !w.spec.gateway.EmptyText? then
      Finish(o, !noLonger, w, None, InvalidGatewayError, None)
    else AwaitGw(w, noLonger)
  }

  /** No node matched the selectors. */
  ghost function NoneSelected(o: Options, w: Resource): (q: Proc)
    ensures Rank(q) <= GATEWAY
  {
    if Listed(w.status, o.host) then AfterSelect(o, w, true) else Done(NodeNotFound, None)
  }

  ghost function Fetched(o: Options, w: Resource): (q: Proc)
    ensures Rank(q) <= LIST
  {
    if w.spec.selectors == [] then AfterSelect(o, w, false)
    else if SelectorsUsable(o, w.spec.selectors) then AwaitList(w)
    else Finish(o, true, w, Some(ZERO_IP), WrongSelectorErr, None)
  }

  /** The branch between withdrawing and adding, with the gateway resolved. */
  ghost function Resolved(o: Options, w: Resource, gw: Ip, noLonger: bool): Proc {
    Branch(o, w, gw, noLonger, Changed(w.status, o.host, w.spec, Dotted(gw)), Listed(w.status, o.host))
  }

  function Branch(o: Options, w: Resource, gw: Ip, noLonger: bool, changed: bool, listed: bool): Proc {
    if w.deleting || changed || noLonger then
      if listed then AwaitDeregister(w.(status := Without(w.status, o.host)), changed)
      else Done(AlreadyDeleted, None)
    else Adding(w, gw, TableOf(o, w.spec))
  }

  function Adding(w: Resource, gw: Ip, table: int): Proc {
    if w.finalizers == [] then AwaitFinalizer(w.(finalizers := [FINALIZER]), gw, table)
    else AwaitIsRegistered(w, gw, table)
  }

  ghost function NotRegistered(o: Options, w: Resource, gw: Ip, table: int): (q: Proc)
    ensures Rank(q) <= REGISTER
  {
    match ParseCIDR(w.spec.subnet)
    case None => Finish(o, true, w, Some(gw), ParseSubnetError, None)
    case Some(net) => AwaitRegister(w, gw, Route(net, gw, table))
  }

  /** deleteOperation's outcome; a changed route always answers UpdateFinished. */
  function DelDone(changed: bool, res: Result, err: Option<string>): Proc {
    Done(if changed then UpdateFinished else res, err)
  }

  function DelStatusStored(w: Resource, changed: bool): Proc {
    if w.status == [] then AwaitClear(w.(finalizers := []), changed)
    else DelDone(changed, DeletionFinished, None)
  }

  // ------------------------------------------------------------ the process

  function Pending(o: Options, p: Proc): Call
    requires !p.Done?
  {
    match p
    case AwaitGet => CGet
    case AwaitList(w) => CList(AllSelectors(o, w.spec.selectors))
    case AwaitGw(w, _) => CGetGw(GwQuery(o, w.spec))
    case AwaitFinalizer(w, _, _) => CUpdate(w)
    case AwaitIsRegistered(_, _, _) => CIsRegistered(o.name)
    case AwaitRegister(_, _, route) => CRegister(o.name, route)
    case AwaitReport(w, _, _) => CStatusUpdate(w)
    case AwaitDeregister(_, _) => CDeregister(o.name)
    case AwaitDelStatus(w, _) => CStatusUpdate(w)
    case AwaitClear(w, _) => CUpdate(w)
  }

  /** GetGw has answered. */
  ghost function GatewayAnswered(o: Options, w: Resource, noLonger: bool, a: Answer): (q: Proc)
    requires a.AHop? || a.AError?
    ensures Rank(q) < GATEWAY
  {
    if a.AError? then Finish(o, !noLonger, w, None, RouteGetError, Some(a.text))
    else if w.spec.gateway.Dotted? then
      if a.hop.Some? then Finish(o, !noLonger, w, Some(w.spec.gateway.ip), GatewayNotDirectlyRoutableError, None)
      else Resolved(o, w, w.spec.gateway.ip, noLonger)
    else if a.hop.None? then Finish(o, !noLonger, w, None, NoResult, None)
    else Resolved(o, w, a.hop.value, noLonger)
  }

  ghost function Advance(o: Options, p: Proc, a: Answer): (q: Proc)
    requires !p.Done? && Fits(Pending(o, p), a)
    ensures Rank(q) < Rank(p)
  {
    match p
    case AwaitGet =>
      if a.AMissing? then Done(CrNotFound, None)
      else if a.AError? then Done(CrGetError, Some(a.text))
      else Fetched(o, a.resource)
    case AwaitList(w) =>
      if a.AError? then Finish(o, true, w, Some(ZERO_IP), NodeGetError, Some(a.text))
      else if a.count == 0 then NoneSelected(o, w)
      else AfterSelect(o, w, false)
    case AwaitGw(w, noLonger) => GatewayAnswered(o, w, noLonger, a)
    case AwaitFinalizer(w, gw, table) =>
      if a.AError? then Finish(o, true, w, Some(gw), SetFinalizerError, Some(a.text))
      else AwaitIsRegistered(a.resource, gw, table)
    case AwaitIsRegistered(w, gw, table) =>
      if a.yes then Finish(o, true, w, Some(gw), Finished, None) else NotRegistered(o, w, gw, table)
    case AwaitRegister(w, gw, _) =>
      if a.reply.Failed? then Finish(o, true, w, Some(gw), RegisterRouteError, Some(a.reply.text))
      else Finish(o, true, w, Some(gw), Finished, None)
    case AwaitReport(w, res, err) =>
      if a.AError? then AfterReport(w, AddStatusUpdateError, Some(a.text)) else AfterReport(a.resource, res, err)
    case AwaitDeregister(w, changed) =>
      if a.reply.Failed? then DelDone(changed, DeRegisterError, Some(a.reply.text)) else AwaitDelStatus(w, changed)
    case AwaitDelStatus(w, changed) =>
      if a.AError? then DelDone(changed, DelStatusUpdateError, Some(a.text)) else DelStatusStored(a.resource, changed)
    case AwaitClear(w, changed) =>
      if a.AError? then DelDone(changed, EmptyFinalizerError, Some(a.text))
      else DelDone(changed, DeletionFinished, None)
  }

  // ------------------------------------------------------------ traces

  datatype Exchange = Exchange(call: Call, answer: Answer)

  /** Where a process at `p` stands after a sequence of exchanges, if those are the calls it makes. */
  ghost function FollowFrom(o: Options, p: Proc, es: seq<Exchange>): Option<Proc>
    decreases |es|
  {
    if es == [] then Some(p)
    else if p.Done? || Pending(o, p) != es[0].call || !Fits(es[0].call, es[0].answer) then None
    else FollowFrom(o, Advance(o, p, es[0].answer), es[1..])
  }

  /** The same for a whole round, from its first call on. */
  ghost function Follow(o: Options, es: seq<Exchange>): Option<Proc> {
    FollowFrom(o, AwaitGet, es)
  }

  lemma {:induction false} FollowStep(o: Options, p: Proc, es: seq<Exchange>, q: Proc, e: Exchange)
    requires FollowFrom(o, p, es) == Some(q) && !q.Done?
    requires e.call == Pending(o, q) && Fits(e.call, e.answer)
    ensures FollowFrom(o, p, es + [e]) == Some(Advance(o, q, e.answer))
    decreases |es|
  {
    if es == [] {
      assert es + [e] == [e] && [e][1..] == [];
    } else {
      FollowStep(o, Advance(o, p, es[0].answer), es[1..], q, e);
      assert (es + [e])[1..] == es[1..] + [e];
    }
  }
}
