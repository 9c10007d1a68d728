/** The protocol one call at a time: any number of nodes, any interleaving, stale reads, failed
    and conflicting writes, and the node cleaner. */
module FineSteps {
  import opened Optional
  import opened StaticRoutes
  import opened Reconcile
  import opened Tracking
  import opened Cluster
  import opened NodeCleaner

  // ------------------------------------------------------------ stored versions

  /** Versions are never reused, every stored version lists distinct hosts, and the stored
      object is the version it says it is and has a finalizer while it is being deleted. */
  ghost predicate HistoryOk(w: World) {
    (forall v :: v in w.hist ==> v < w.next && w.hist[v].version == v && Distinct(w.hist[v].status))
    && (w.obj.Some? ==> IsStored(w, w.obj.value))
  }

  ghost predicate IsStored(w: World, r: Resource) {
    r.version in w.hist && w.hist[r.version] == r && (r.deleting ==> r.finalizers != [])
  }

  ghost predicate HistoryGrows(w: World, w': World) {
    forall v :: v in w.hist ==> v in w'.hist && w'.hist[v] == w.hist[v]
  }

  lemma CommitHistory(w: World, r: Resource)
    requires HistoryOk(w) && Distinct(r.status)
    ensures HistoryOk(Commit(w, r)) && HistoryGrows(w, Commit(w, r))
    ensures w.next in Commit(w, r).hist && Commit(w, r).hist[w.next] == r.(version := w.next)
    ensures !r.deleting || r.finalizers != [] ==> Commit(w, r).obj == Some(r.(version := w.next))
  { }

  /** A stage has fetched its working copy. */
  predicate HasCopy(p: Proc) {
    !p.Done? && !p.AwaitGet?
  }

  /** The working copy of a stage is based on a stored version; a node about to write its
      withdrawal has let go of the route. */
  ghost predicate ProcOk(s: Setup, w: World, h: Host, p: Proc) {
    HasCopy(p) ==>
      Copy(p).version in w.hist && Tracks(h, w.hist[Copy(p).version], p)
      && (p.AwaitDelStatus? ==> !Holds(s, w, h))
  }

  ghost predicate FineInv(s: Setup, w: World) {
    HistoryOk(w) && w.procs.Keys <= w.live && forall h :: h in w.procs ==> ProcOk(s, w, h, w.procs[h])
  }

  /** The version a stage's copy is based on. */
  ghost function BaseOf(w: World, p: Proc): Resource
    requires HasCopy(p) ==> Copy(p).version in w.hist
  {
    if HasCopy(p) then w.hist[Copy(p).version] else Resource(0, Spec(Malformed(""), EmptyText, None, []), false, [], [])
  }

  /** What one exchange does to the store: nothing, or one accepted write over the version the
      writer had read. */
  lemma ExecStore(s: Setup, w: World, h: Host, p: Proc, c: Choice)
    requires ValidSetup(s) && HistoryOk(w) && !p.Done? && ProcOk(s, w, h, p)
    ensures var (w', a) := Exec(w, h, Pending(s.options(h), p), c);
            HistoryOk(w') && HistoryGrows(w, w')
            && (a.AObject? ==> a.resource.version in w'.hist && w'.hist[a.resource.version] == a.resource
                               && Distinct(a.resource.status) && Stored(BaseOf(w, p), p, a.resource))
  {
    var call := Pending(s.options(h), p);
    if call.CUpdate? || call.CStatusUpdate? {
      if Accepted(w, call.resource, c) {
        var b := w.obj.value;
        assert b == BaseOf(w, p);
        var r := if call.CUpdate? then b.(spec := call.resource.spec, finalizers := call.resource.finalizers)
                 else b.(status := call.resource.status);
        CommitHistory(w, r);
      }
    }
  }

  lemma OthersProcOk(s: Setup, w: World, w': World, g: Host, p: Proc)
    requires ProcOk(s, w, g, p) && HistoryGrows(w, w') && (Holds(s, w', g) ==> Holds(s, w, g))
    ensures ProcOk(s, w', g, p)
  { }

  /** The next stage's copy is the old one, or the object just read or written. */
  lemma CopyVersion(o: Options, base: Resource, p: Proc, a: Answer)
    requires !p.Done? && Fits(Pending(o, p), a)
    requires HasCopy(p) ==> Copy(p).version == base.version
    requires TracksOrEnds(o.host, NewBase(base, a), Advance(o, p, a))
    ensures HasCopy(Advance(o, p, a)) ==> Copy(Advance(o, p, a)).version == NewBase(base, a).version
    ensures Advance(o, p, a).AwaitDelStatus? ==> p.AwaitDeregister? && !a.reply.Failed?
  { }

  /** The own process stays in order across an exchange. */
  lemma OwnProcOk(s: Setup, w: World, h: Host, p: Proc, c: Choice)
    requires ValidSetup(s) && HistoryOk(w) && !p.Done? && ProcOk(s, w, h, p)
    ensures var (w', a) := Exec(w, h, Pending(s.options(h), p), c);
            ProcOk(s, w', h, Advance(s.options(h), p, a))
            && TracksOrEnds(h, NewBase(BaseOf(w, p), a), Advance(s.options(h), p, a))
  {
    var o, base := s.options(h), BaseOf(w, p);
    var (w', a) := Exec(w, h, Pending(o, p), c);
    ExecStore(s, w, h, p, c);
    AdvanceTracks(o, base, p, a);
    CopyVersion(o, base, p, a);
    if HasCopy(p) || a.AObject? {
      assert NewBase(base, a).version in w'.hist && w'.hist[NewBase(base, a).version] == NewBase(base, a);
    } else {
      ReadFailed(o, p, a);
    }
    if Advance(o, p, a).AwaitDelStatus? {
      DeregisterReleases(s, w, h, p, c);
    }
  }

  lemma ReadFailed(o: Options, p: Proc, a: Answer)
    requires p.AwaitGet? && Fits(CGet, a) && !a.AObject?
    ensures Advance(o, p, a).Done?
  { }

  lemma DeregisterReleases(s: Setup, w: World, h: Host, p: Proc, c: Choice)
    requires ValidSetup(s) && p.AwaitDeregister?
    ensures var (w', a) := Exec(w, h, Pending(s.options(h), p), c); !a.reply.Failed? ==> !Holds(s, w', h)
  { }

  lemma CutDistinct(status: seq<Entry>, h: Host)
    requires Distinct(status)
    ensures Distinct(Cut(status, h))
  {
    CleanedMentionsNoOne(status, h);
  }

  lemma OutsideStore(s: Setup, w: World, e: Outside)
    requires HistoryOk(w) && OutsideEnabled(s, w, e)
    ensures HistoryOk(AfterOutside(s, w, e)) && HistoryGrows(w, AfterOutside(s, w, e))
  {
    match e
    case Create(spec) => CommitHistory(w, Resource(w.next, spec, false, [], []));
    case Edit(spec) => CommitHistory(w, w.obj.value.(spec := spec));
    case Delete => if w.obj.value.finalizers != [] { CommitHistory(w, w.obj.value.(deleting := true)); }
    case CleanNode(h, seen) =>
      if w.obj.Some? && w.obj.value.version == seen {
        CutDistinct(w.obj.value.status, h);
        CommitHistory(w, w.obj.value.(status := Cut(w.obj.value.status, h)));
      }
    case NodeGone(_) =>
    case OtherRoute(_, _, _) =>
  }

  lemma OutsideHolds(s: Setup, w: World, e: Outside, g: Host)
    requires OutsideEnabled(s, w, e)
    ensures Holds(s, AfterOutside(s, w, e), g) <==> Holds(s, w, g)
  { }

  lemma AssembleInv(s: Setup, w: World, h: Host, w1: World, q: Proc)
    requires FineInv(s, w) && h in w.procs && HistoryOk(w1) && HistoryGrows(w, w1)
    requires w1.procs == w.procs && w1.live == w.live && ProcOk(s, w1, h, q)
    requires forall g :: g != h ==> ManagedOf(w1, g) == ManagedOf(w, g)
    ensures FineInv(s, w1.(procs := w1.procs[h := q]))
  {
    var w' := w1.(procs := w1.procs[h := q]);
    assert HistoryGrows(w1, w');
    forall g | g in w'.procs ensures ProcOk(s, w', g, w'.procs[g]) {
      if g != h {
        assert ManagedOf(w1, g) == ManagedOf(w, g);
        OthersProcOk(s, w, w', g, w.procs[g]);
      } else {
        OthersProcOk(s, w1, w', h, q);
      }
    }
  }

  lemma ExchangeKeeps(s: Setup, w: World, h: Host, c: Choice)
    requires ValidSetup(s) && FineInv(s, w) && StepEnabled(s, w, Proceed(h, c))
    ensures FineInv(s, AfterStep(s, w, Proceed(h, c)))
  {
    var o, p := s.options(h), w.procs[h];
    assert ProcOk(s, w, h, p);
    var (w1, answer) := Exec(w, h, Pending(o, p), c);
    ExecStore(s, w, h, p, c);
    OwnProcOk(s, w, h, p, c);
    forall g | g != h ensures ManagedOf(w1, g) == ManagedOf(w, g) {
      OthersHold(s, w, h, p, c, g);
    }
    ExecFrame(w, h, Pending(o, p), c);
    AssembleInv(s, w, h, w1, Advance(o, p, answer));
  }

  /** A node's calls do not touch another node's manager. */
  lemma OthersHold(s: Setup, w: World, h: Host, p: Proc, c: Choice, g: Host)
    requires !p.Done? && g != h
    ensures ManagedOf(Exec(w, h, Pending(s.options(h), p), c).0, g) == ManagedOf(w, g)
  { }

  lemma FineStepKeeps(s: Setup, w: World, a: Step)
    requires ValidSetup(s) && FineInv(s, w) && StepEnabled(s, w, a)
    ensures FineInv(s, AfterStep(s, w, a))
  {
    if a.Proceed? {
      ExchangeKeeps(s, w, a.h, a.c);
    } else {
      var w' := AfterStep(s, w, a);
      if a.Other? { OutsideStore(s, w, a.e); }
      forall g | g in w'.procs ensures ProcOk(s, w', g, w'.procs[g]) {
        if a.Other? { OutsideHolds(s, w, a.e, g); }
        if g in w.procs { OthersProcOk(s, w, w', g, w.procs[g]); }
      }
    }
  }

  // ------------------------------------------------------------ the two safety steps

  /** Whatever step takes the finalizers away, or the object with them, finds an empty status. */
  lemma ClearFindsEmptyStatus(s: Setup, w: World, a: Step, w': World)
    requires ValidSetup(s) && FineInv(s, w) && StepsTo(s, w, a, w')
    requires w.obj.Some? && w.obj.value.finalizers != []
    requires w'.obj.None? || w'.obj.value.finalizers == []
    ensures w.obj.value.status == []
  {
    if a.Proceed? {
      assert ProcOk(s, w, a.h, w.procs[a.h]);
    }
  }

  /** A listed node that holds the route stays listed, whoever moves; only the node's own
      deregistration, or the end of an object without finalizers, is a way out. */
  lemma ListedHolderStays(s: Setup, w: World, a: Step, w': World, g: Host)
    requires ValidSetup(s) && FineInv(s, w) && StepsTo(s, w, a, w')
    requires g in w.live && ListedIn(w, g) && Holds(s, w, g)
    ensures if w'.obj.Some? then ListedIn(w', g) else w.obj.value.finalizers == []
  {
    if w'.obj.None? {
      if w.obj.value.finalizers != [] {
        ClearFindsEmptyStatus(s, w, a, w');
      }
    } else if a.Proceed? {
      WriteKeepsListed(s, w, a.h, a.c, g);
    } else if a.Other? && a.e.CleanNode? && w.obj.value.version == a.e.seen {
      var t := w.obj.value.status;
      CleanedMentionsNoOne(t, a.e.host);
      OthersKept(t, Cut(t, a.e.host), a.e.host, g);
    }
  }

  lemma WriteKeepsListed(s: Setup, w: World, h: Host, c: Choice, g: Host)
    requires ValidSetup(s) && FineInv(s, w) && StepEnabled(s, w, Proceed(h, c))
    requires ListedIn(w, g) && Holds(s, w, g)
    requires AfterStep(s, w, Proceed(h, c)).obj.Some?
    ensures ListedIn(AfterStep(s, w, Proceed(h, c)), g)
  {
    var p := w.procs[h];
    assert ProcOk(s, w, h, p);
    var call := Pending(s.options(h), p);
    if call.CStatusUpdate? && Accepted(w, call.resource, c) {
      assert w.hist[Copy(p).version] == w.obj.value;
      if g != h {
        OthersKept(w.obj.value.status, call.resource.status, h, g);
      }
    }
  }

  // ------------------------------------------------------------ whole runs

  lemma {:induction false} RunKeeps(s: Setup, ws: seq<World>, steps: seq<Step>, i: nat)
    requires ValidSetup(s) && IsRun(s, ws, steps) && i < |ws|
    ensures FineInv(s, ws[i])
  {
    if i > 0 {
      RunKeeps(s, ws, steps, i - 1);
      assert StepsTo(s, ws[i - 1], steps[i - 1], ws[i - 1 + 1]);
      FineStepKeeps(s, ws[i - 1], steps[i - 1]);
    }
  }

  /** In every run, whatever the interleaving: a step that clears the finalizers commits against
      an empty status. */
  lemma FinalizersGoLast(s: Setup, ws: seq<World>, steps: seq<Step>, i: nat)
    requires ValidSetup(s) && IsRun(s, ws, steps) && i < |steps|
    requires ws[i].obj.Some? && ws[i].obj.value.finalizers != []
    requires ws[i + 1].obj.None? || ws[i + 1].obj.value.finalizers == []
    ensures ws[i].obj.value.status == []
  {
    RunKeeps(s, ws, steps, i);
    ClearFindsEmptyStatus(s, ws[i], steps[i], ws[i + 1]);
  }

  /** A step that takes the finalizers away is an accepted write, which moves no route. */
  lemma ClearMovesNoRoute(s: Setup, w: World, a: Step, w': World, g: Host)
    requires StepsTo(s, w, a, w') && w.obj.Some? && w.obj.value.finalizers != []
    requires w'.obj.None? || w'.obj.value.finalizers == []
    ensures (g in w'.live <==> g in w.live) && (Holds(s, w', g) <==> Holds(s, w, g))
  {
    if a.Other? {
      OutsideHolds(s, w, a.e, g);
    }
  }

  /** The node lives and holds the route from world `i` to world `j`. */
  ghost predicate HoldsThroughout(s: Setup, ws: seq<World>, i: nat, j: nat, g: Host)
    requires i <= j < |ws|
  {
    forall k :: i <= k <= j ==> g in ws[k].live && Holds(s, ws[k], g)
  }

  lemma HoldsAt(s: Setup, ws: seq<World>, i: nat, j: nat, g: Host, k: nat)
    requires i <= k <= j < |ws| && HoldsThroughout(s, ws, i, j, g)
    ensures g in ws[k].live && Holds(s, ws[k], g)
    ensures HoldsThroughout(s, ws, i, k, g)
  { }

  /** Step `m` takes away an object that has no finalizer. */
  ghost predicate EndsUnfinalized(ws: seq<World>, m: nat)
    requires m + 1 < |ws|
  {
    ws[m].obj.Some? && ws[m].obj.value.finalizers == [] && ws[m + 1].obj.None?
  }

  /** In every run a listed holder stays listed until its manager lets go, unless an object
      without finalizers is deleted under it. */
  lemma {:induction false} OnceListedStaysListed(s: Setup, ws: seq<World>, steps: seq<Step>, i: nat, j: nat, g: Host)
    requires ValidSetup(s) && IsRun(s, ws, steps) && i <= j < |ws|
    requires HoldsThroughout(s, ws, i, j, g) && ListedIn(ws[i], g)
    ensures ListedIn(ws[j], g) || exists m :: i <= m < j && EndsUnfinalized(ws, m)
    decreases j
  {
    if i < j {
      var k := j - 1;
      HoldsAt(s, ws, i, j, g, k);
      OnceListedStaysListed(s, ws, steps, i, k, g);
      if ListedIn(ws[k], g) {
        RunKeeps(s, ws, steps, k);
        RunStep(s, ws, steps, k);
        ListedHolderStays(s, ws[k], steps[k], ws[j], g);
        assert ws[j].obj.None? ==> EndsUnfinalized(ws, k);
      }
    }
  }

  lemma RunStep(s: Setup, ws: seq<World>, steps: seq<Step>, k: nat)
    requires IsRun(s, ws, steps) && k < |steps|
    ensures StepsTo(s, ws[k], steps[k], ws[k + 1])
  { }

  /** In every run, a node that still holds the route when the finalizers are cleared has had no
      entry in the stored status at any time since it registered, except in an object that was
      deleted without finalizers in the meantime. */
  lemma HoldersAtClearWereNeverListed(s: Setup, ws: seq<World>, steps: seq<Step>, since: nat, i: nat, g: Host)
    requires ValidSetup(s) && IsRun(s, ws, steps) && since <= i < |steps|
    requires HoldsThroughout(s, ws, since, i, g)
    requires ws[i].obj.Some? && ws[i].obj.value.finalizers != []
    requires ws[i + 1].obj.None? || ws[i + 1].obj.value.finalizers == []
    ensures forall k :: since <= k <= i && ListedIn(ws[k], g) ==> exists m :: k <= m < i && EndsUnfinalized(ws, m)
  {
    FinalizersGoLast(s, ws, steps, i);
    forall k | since <= k <= i && ListedIn(ws[k], g) ensures exists m :: k <= m < i && EndsUnfinalized(ws, m) {
      OnceListedStaysListed(s, ws, steps, k, i, g);
    }
  }

  /** In every run the stored hosts are distinct, and an exchange of one node leaves all other
      hosts' entries unchanged and in order. */
  lemma WritesAreLocal(s: Setup, ws: seq<World>, steps: seq<Step>, i: nat)
    requires ValidSetup(s) && IsRun(s, ws, steps) && i < |steps|
    ensures ws[i].obj.Some? ==> Distinct(ws[i].obj.value.status)
    ensures steps[i].Proceed? && ws[i].obj.Some? && ws[i + 1].obj.Some? ==>
              Without(ws[i + 1].obj.value.status, steps[i].h) == Without(ws[i].obj.value.status, steps[i].h)
    ensures steps[i].Other? && steps[i].e.CleanNode? && ws[i].obj.Some? && ws[i + 1].obj.Some? ==>
              Without(ws[i + 1].obj.value.status, steps[i].e.host) == Without(ws[i].obj.value.status, steps[i].e.host)
  {
    RunKeeps(s, ws, steps, i);
    var w, a := ws[i], steps[i];
    assert StepsTo(s, w, a, ws[i + 1]);
    if a.Proceed? && w.obj.Some? {
      var p := w.procs[a.h];
      assert ProcOk(s, w, a.h, p);
      var call := Pending(s.options(a.h), p);
      if call.CStatusUpdate? && Accepted(w, call.resource, a.c) {
        assert w.hist[Copy(p).version] == w.obj.value;
      }
    }
    if a.Other? && a.e.CleanNode? && w.obj.Some? {
      CleanedMentionsNoOne(w.obj.value.status, a.e.host);
    }
  }
}
