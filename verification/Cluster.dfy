/** One StaticRoute shared by all nodes: the stored object behind version-checked writes, each
    node's manager, and the rounds in flight. Steps come at two grains: single calls, and
    whole rounds. */
module Cluster {
  import opened Ipv4
  import opened Optional
  import opened StaticRoutes
  import opened RouteManager
  import opened Reconcile
  import opened NodeCleaner

  /** The CR's name and every node's configuration. */
  datatype Setup = Setup(name: string, options: Host -> Options)

  ghost predicate ValidSetup(s: Setup) {
    forall h: Host :: s.options(h).host == h && s.options(h).name == s.name
  }

  /** `hist` holds every version ever stored, so that reads may be stale; `next` is the first
      unused version. `procs` are the rounds in flight, at most one a node. */
  datatype World = World(
    obj: Option<Resource>,
    hist: map<nat, Resource>,
    next: nat,
    live: set<Host>,
    managed: map<Host, Managed>,
    procs: map<Host, Proc>)

  ghost predicate Initial(w: World) {
    w.obj == None && w.hist == map[] && w.managed == map[] && w.procs == map[]
  }

  /** Nothing stored, nothing managed, the given nodes alive. */
  function FirstWorld(live: set<Host>): World {
    World(None, map[], 0, live, map[], map[])
  }

  function ManagedOf(w: World, h: Host): Managed {
    if h in w.managed then w.managed[h] else map[]
  }

  /** The node's manager holds the CR's route. */
  predicate Holds(s: Setup, w: World, h: Host) {
    s.name in ManagedOf(w, h)
  }

  /** The CR's route in the node's manager. */
  function HeldRoute(s: Setup, w: World, h: Host): Option<Route> {
    if Holds(s, w, h) then Some(ManagedOf(w, h)[s.name]) else None
  }

  ghost predicate ListedIn(w: World, h: Host) {
    w.obj.Some? && Listed(w.obj.value.status, h)
  }

  /** The object protects a node's route: it exists, has a finalizer, and lists the node. */
  ghost predicate Shielded(w: World, h: Host) {
    w.obj.Some? && w.obj.value.finalizers != [] && Listed(w.obj.value.status, h)
  }

  // ------------------------------------------------------------ answering one call

  /** The stored object a read returns: the current one, or, from a cache, any version ever stored
      (a version that was never stored reads as missing). */
  datatype Seen = Latest | Cached(version: nat)

  /** What the environment decides about one call: an error text (for a manager command: the
      kernel's error), what a read returns, the number of selected nodes, the next hop. */
  datatype Choice = Choice(fail: Option<string>, seen: Seen, nodes: nat, hop: Option<Ip>)

  const CONFLICT := "the object has been modified"

  /** A write is accepted only against the stored version. */
  predicate Accepted(w: World, r: Resource, c: Choice) {
    c.fail.None? && w.obj.Some? && w.obj.value.version == r.version
  }

  function Read(w: World, seen: Seen): Answer {
    match seen
    case Latest => if w.obj.Some? then AObject(w.obj.value) else AMissing
    case Cached(v) => if v in w.hist then AObject(w.hist[v]) else AMissing
  }

  function Refusal(c: Choice): Answer {
    AError(if c.fail.Some? then c.fail.value else CONFLICT)
  }

  /** Every write gets a fresh version; an object in deletion goes with its last finalizer. */
  function Commit(w: World, r: Resource): World {
    var r' := r.(version := w.next);
    w.(obj := if r.deleting && r.finalizers == [] then None else Some(r'),
       hist := w.hist[w.next := r'], next := w.next + 1)
  }

  function Exec(w: World, h: Host, call: Call, c: Choice): (r: (World, Answer))
    ensures Fits(call, r.1)
  {
    match call
    case CGet =>
      (w, if c.fail.Some? then AError(c.fail.value) else Read(w, c.seen))
    case CList(_) => (w, if c.fail.Some? then AError(c.fail.value) else ANodes(c.nodes))
    case CGetGw(_) => (w, if c.fail.Some? then AError(c.fail.value) else AHop(c.hop))
    case CUpdate(r) =>
      if !Accepted(w, r, c) then (w, Refusal(c))
      else
        var r' := w.obj.value.(spec := r.spec, finalizers := r.finalizers);
        (Commit(w, r'), AObject(r'.(version := w.next)))
    case CStatusUpdate(r) =>
      if !Accepted(w, r, c) then (w, Refusal(c))
      else
        var r' := w.obj.value.(status := r.status);
        (Commit(w, r'), AObject(r'.(version := w.next)))
    case CIsRegistered(name) => (w, ABool(name in ManagedOf(w, h)))
    case CRegister(name, route) =>
      var (m, reply) := AfterRegister(ManagedOf(w, h), name, route, c.fail);
      (w.(managed := w.managed[h := m]), AReply(reply))
    case CDeregister(name) =>
      var (m, reply) := AfterDeregister(ManagedOf(w, h), name, c.fail);
      (w.(managed := w.managed[h := m]), AReply(reply))
  }

  // ------------------------------------------------------------ everyone else

  /** What happens outside the route controllers. */
  datatype Outside =
    | Create(spec: Spec)
    | Edit(spec: Spec)
    | Delete
    | NodeGone(host: Host)
    | CleanNode(host: Host, seen: nat)
    | OtherRoute(host: Host, request: Request, kernel: Option<string>)

  predicate OutsideEnabled(s: Setup, w: World, e: Outside) {
    match e
    case Create(_) => w.obj.None?
    case Edit(_) => w.obj.Some?
    case Delete => w.obj.Some?
    case NodeGone(h) => h in w.live
    case CleanNode(h, seen) => h !in w.live && seen in w.hist
    case OtherRoute(h, r, _) => h in w.live && r.name != s.name
  }

  /** The node cleaner removes a vanished node's entry, against the version it read. */
  function AfterClean(w: World, h: Host, seen: nat): World {
    if w.obj.Some? && w.obj.value.version == seen
    then Commit(w, w.obj.value.(status := Cut(w.obj.value.status, h)))
    else w
  }

  function AfterOutside(s: Setup, w: World, e: Outside): World
    requires OutsideEnabled(s, w, e)
  {
    match e
    case Create(spec) => Commit(w, Resource(w.next, spec, false, [], []))
    case Edit(spec) => Commit(w, w.obj.value.(spec := spec))
    case Delete =>
      if w.obj.value.finalizers == [] then w.(obj := None)
      else Commit(w, w.obj.value.(deleting := true))
    case NodeGone(h) => w.(live := w.live - {h}, procs := w.procs - {h})
    case CleanNode(h, seen) => AfterClean(w, h, seen)
    case OtherRoute(h, r, kernel) =>
      var m := match r
        case Register(name, route) => AfterRegister(ManagedOf(w, h), name, route, kernel).0
        case Deregister(name) => AfterDeregister(ManagedOf(w, h), name, kernel).0;
      w.(managed := w.managed[h := m])
  }

  // ------------------------------------------------------------ fine steps

  datatype Step = Begin(h: Host) | Proceed(h: Host, c: Choice) | End(h: Host) | Other(e: Outside)

  predicate StepEnabled(s: Setup, w: World, a: Step) {
    match a
    case Begin(h) => h in w.live && h !in w.procs
    case Proceed(h, _) => h in w.procs && !w.procs[h].Done?
    case End(h) => h in w.procs && w.procs[h].Done?
    case Other(e) => OutsideEnabled(s, w, e)
  }

  ghost function AfterStep(s: Setup, w: World, a: Step): World
    requires StepEnabled(s, w, a)
  {
    match a
    case Begin(h) => w.(procs := w.procs[h := AwaitGet])
    case Proceed(h, c) =>
      var o, p := s.options(h), w.procs[h];
      var (w', answer) := Exec(w, h, Pending(o, p), c);
      w'.(procs := w'.procs[h := Advance(o, p, answer)])
    case End(h) => w.(procs := w.procs - {h})
    case Other(e) => AfterOutside(s, w, e)
  }

  ghost predicate StepsTo(s: Setup, w: World, a: Step, w': World) {
    StepEnabled(s, w, a) && w' == AfterStep(s, w, a)
  }

  /** Each world follows from the one before it. */
  ghost predicate IsChain(s: Setup, ws: seq<World>, steps: seq<Step>) {
    |ws| == |steps| + 1 && forall i :: 0 <= i < |steps| ==> StepsTo(s, ws[i], steps[i], ws[i + 1])
  }

  /** A run is a chain from an initial world. */
  ghost predicate IsRun(s: Setup, ws: seq<World>, steps: seq<Step>) {
    IsChain(s, ws, steps) && Initial(ws[0])
  }

  // ------------------------------------------------------------ whole rounds

  /** One choice for each stage of a round, by rank. */
  type Choices = nat -> Choice

  /** The round fetches the CR, and sees it as it is. */
  predicate FreshRead(ch: Choices) {
    ch(GET).fail.None? && ch(GET).seen.Latest?
  }

  /** What the round reads is the stored object. */
  predicate SeesObject(w: World, ch: Choices) {
    ch(GET).fail.None? && w.obj.Some? && Read(w, ch(GET).seen) == AObject(w.obj.value)
  }

  datatype Outcome = Outcome(world: World, last: Proc, exchanges: seq<Exchange>)

  /** One call of a round: the world after it, and the answer. */
  function Answered(s: Setup, w: World, h: Host, p: Proc, ch: Choices): (r: (World, Answer))
    requires !p.Done?
    ensures Fits(Pending(s.options(h), p), r.1)
  {
    Exec(w, h, Pending(s.options(h), p), ch(Rank(p)))
  }

  /** Running a round from a stage to its end, with nothing in between. */
  ghost function RunToEnd(s: Setup, w: World, h: Host, p: Proc, ch: Choices): Outcome
    decreases Rank(p)
  {
    if p.Done? then Outcome(w, p, [])
    else
      var (w', a) := Answered(s, w, h, p, ch);
      var rest := RunToEnd(s, w', h, Advance(s.options(h), p, a), ch);
      rest.(exchanges := [Exchange(Pending(s.options(h), p), a)] + rest.exchanges)
  }

  ghost function Round(s: Setup, w: World, h: Host, ch: Choices): Outcome {
    RunToEnd(s, w, h, AwaitGet, ch)
  }

  // ------------------------------------------------------------ linking the grains

  lemma {:induction false} ExchangesFollow(s: Setup, w: World, h: Host, p: Proc, ch: Choices)
    ensures FollowFrom(s.options(h), p, RunToEnd(s, w, h, p, ch).exchanges) == Some(RunToEnd(s, w, h, p, ch).last)
    ensures RunToEnd(s, w, h, p, ch).last.Done?
    decreases Rank(p)
  {
    if !p.Done? {
      var (w', a) := Answered(s, w, h, p, ch);
      var q := Advance(s.options(h), p, a);
      ExchangesFollow(s, w', h, q, ch);
      var es := RunToEnd(s, w, h, p, ch).exchanges;
      assert es[1..] == RunToEnd(s, w', h, q, ch).exchanges;
    }
  }

  /** The calls of an atomic round and their answers are a complete run of the process that
      reconcileImpl is proved to follow. */
  lemma RoundIsProcessRun(s: Setup, w: World, h: Host, ch: Choices)
    ensures Follow(s.options(h), Round(s, w, h, ch).exchanges) == Some(Round(s, w, h, ch).last)
    ensures Round(s, w, h, ch).last.Done?
  {
    ExchangesFollow(s, w, h, AwaitGet, ch);
  }

  /** The fine steps that make up a round from a stage on. */
  ghost function StepsOf(s: Setup, w: World, h: Host, p: Proc, ch: Choices): seq<Step>
    decreases Rank(p)
  {
    if p.Done? then [End(h)]
    else
      var (w', a) := Answered(s, w, h, p, ch);
      [Proceed(h, ch(Rank(p)))] + StepsOf(s, w', h, Advance(s.options(h), p, a), ch)
  }

  /** `w` leads to `w'` by these steps. */
  ghost predicate Leads(s: Setup, w: World, steps: seq<Step>, w': World)
    decreases |steps|
  {
    if steps == [] then w == w'
    else StepEnabled(s, w, steps[0]) && Leads(s, AfterStep(s, w, steps[0]), steps[1..], w')
  }

  /** One call of a stage, as a fine step beside other rounds in flight. */
  lemma StageStep(s: Setup, w: World, h: Host, p: Proc, ch: Choices, procs: map<Host, Proc>)
    requires !p.Done?
    ensures var (w', a) := Answered(s, w, h, p, ch);
            StepsTo(s, w.(procs := procs[h := p]), Proceed(h, ch(Rank(p))),
                    w'.(procs := procs[h := Advance(s.options(h), p, a)]))
  {
    var (w', a) := Answered(s, w, h, p, ch);
    var q := Advance(s.options(h), p, a);
    ExecIgnoresProcs(w, h, Pending(s.options(h), p), ch(Rank(p)), procs[h := p]);
    assert procs[h := p][h := q] == procs[h := q];
  }

  lemma {:induction false} StageIsFineSteps(s: Setup, w: World, h: Host, p: Proc, ch: Choices, procs: map<Host, Proc>)
    requires h !in procs
    ensures Leads(s, w.(procs := procs[h := p]), StepsOf(s, w, h, p, ch),
                  RunToEnd(s, w, h, p, ch).world.(procs := procs))
    decreases Rank(p)
  {
    var steps := StepsOf(s, w, h, p, ch);
    if p.Done? {
      assert procs[h := p] - {h} == procs;
      assert AfterStep(s, w.(procs := procs[h := p]), steps[0]) == w.(procs := procs);
      assert steps[1..] == [];
    } else {
      var (w', a) := Answered(s, w, h, p, ch);
      var q := Advance(s.options(h), p, a);
      StageStep(s, w, h, p, ch, procs);
      assert steps[1..] == StepsOf(s, w', h, q, ch);
      StageIsFineSteps(s, w', h, q, ch, procs);
    }
  }

  lemma ExecFrame(w: World, h: Host, call: Call, c: Choice)
    ensures Exec(w, h, call, c).0.procs == w.procs && Exec(w, h, call, c).0.live == w.live
  { }

  /** A round does not decide which nodes live, nor touch other rounds in flight. */
  lemma {:induction false} RunFrame(s: Setup, w: World, h: Host, p: Proc, ch: Choices)
    ensures RunToEnd(s, w, h, p, ch).world.live == w.live && RunToEnd(s, w, h, p, ch).world.procs == w.procs
    decreases Rank(p)
  {
    if !p.Done? {
      var (w', a) := Answered(s, w, h, p, ch);
      ExecFrame(w, h, Pending(s.options(h), p), ch(Rank(p)));
      RunFrame(s, w', h, Advance(s.options(h), p, a), ch);
    }
  }

  lemma ExecIgnoresProcs(w: World, h: Host, call: Call, c: Choice, procs: map<Host, Proc>)
    ensures Exec(w.(procs := procs), h, call, c) ==
            (Exec(w, h, call, c).0.(procs := procs), Exec(w, h, call, c).1)
    ensures Exec(w, h, call, c).0.procs == w.procs
  { }

  /** An atomic round is what the fine steps of one uninterrupted round do. */
  lemma RoundIsFineSteps(s: Setup, w: World, h: Host, ch: Choices)
    requires h in w.live && h !in w.procs
    ensures Leads(s, w, [Begin(h)] + StepsOf(s, w, h, AwaitGet, ch), Round(s, w, h, ch).world.(procs := w.procs))
  {
    StageIsFineSteps(s, w, h, AwaitGet, ch, w.procs);
    var steps := [Begin(h)] + StepsOf(s, w, h, AwaitGet, ch);
    assert steps[1..] == StepsOf(s, w, h, AwaitGet, ch);
    assert AfterStep(s, w, steps[0]) == w.(procs := w.procs[h := AwaitGet]);
  }

  lemma {:induction false} LeadsOn(s: Setup, w: World, first: seq<Step>, w': World, second: seq<Step>, w'': World)
    requires Leads(s, w, first, w') && Leads(s, w', second, w'')
    ensures Leads(s, w, first + second, w'')
    decreases |first|
  {
    if first == [] {
      assert first + second == second;
    } else {
      LeadsOn(s, AfterStep(s, w, first[0]), first[1..], w', second, w'');
      assert (first + second)[1..] == first[1..] + second;
    }
  }

  lemma LeadsByOne(s: Setup, w: World, a: Step, w': World)
    requires StepsTo(s, w, a, w')
    ensures Leads(s, w, [a], w')
  {
    assert Leads(s, w', [a][1..], w');
  }

  lemma LeadsOneMore(s: Setup, w: World, steps: seq<Step>, w': World, a: Step, w'': World)
    requires Leads(s, w, steps, w') && StepsTo(s, w', a, w'')
    ensures Leads(s, w, steps + [a], w'')
  {
    LeadsByOne(s, w', a, w'');
    LeadsOn(s, w, steps, w', [a], w'');
  }

  /** Steps that lead somewhere are a chain of worlds. */
  lemma {:induction false} LeadsIsChain(s: Setup, w: World, steps: seq<Step>, w': World) returns (ws: seq<World>)
    requires Leads(s, w, steps, w')
    ensures IsChain(s, ws, steps) && ws[0] == w && ws[|steps|] == w'
    decreases |steps|
  {
    if steps == [] {
      ws := [w];
    } else {
      var rest := LeadsIsChain(s, AfterStep(s, w, steps[0]), steps[1..], w');
      ws := [w] + rest;
      forall i | 0 <= i < |steps| ensures StepsTo(s, ws[i], steps[i], ws[i + 1]) {
        if i > 0 {
          assert StepsTo(s, rest[i - 1], steps[1..][i - 1], rest[i - 1 + 1]);
        }
      }
    }
  }
}
