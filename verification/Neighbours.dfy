/** What one node's turn leaves to the others. Whatever its calls are answered, a round changes
    nothing that another node's rounds depend on. */
module Neighbours {
  import opened StaticRoutes
  import opened Reconcile
  import opened Tracking
  import opened Cluster
  import opened NodeCleaner
  import opened FineSteps

  /** Between the calls of an uninterrupted round the working copy is based on a stored version:
      the current one, or an older one if the round has read from a cache. */
  ghost predicate Steady(s: Setup, w: World, h: Host, p: Proc) {
    HistoryOk(w) && ProcOk(s, w, h, p)
  }

  /** The working copy is of the stored object's version. */
  predicate IsCurrent(w: World, p: Proc) {
    HasCopy(p) && w.obj.Some? && Copy(p).version == w.obj.value.version
  }

  lemma CurrentBase(s: Setup, w: World, h: Host, p: Proc)
    requires Steady(s, w, h, p) && IsCurrent(w, p)
    ensures BaseOf(w, p) == w.obj.value && Tracks(h, w.obj.value, p)
  { }

  lemma SteadyStep(s: Setup, w: World, h: Host, p: Proc, ch: Choices)
    requires ValidSetup(s) && Steady(s, w, h, p) && !p.Done?
    ensures var (w', a) := Answered(s, w, h, p, ch); Steady(s, w', h, Advance(s.options(h), p, a))
  {
    ExecStore(s, w, h, p, ch(Rank(p)));
    OwnProcOk(s, w, h, p, ch(Rank(p)));
  }

  /** A copy that is current stays so, across the round's own writes. */
  lemma CurrentStep(s: Setup, w: World, h: Host, p: Proc, ch: Choices)
    requires ValidSetup(s) && Steady(s, w, h, p) && !p.Done?
    requires if p.AwaitGet? then FreshRead(ch) else IsCurrent(w, p)
    ensures var (w', a) := Answered(s, w, h, p, ch); var q := Advance(s.options(h), p, a);
            HasCopy(q) ==> IsCurrent(w', q)
  {
    var (w', a) := Answered(s, w, h, p, ch);
    OwnProcOk(s, w, h, p, ch(Rank(p)));
    CopyVersion(s.options(h), BaseOf(w, p), p, a);
    if HasCopy(p) {
      CurrentBase(s, w, h, p);
    }
  }

  // ------------------------------------------------------------ what is kept

  ghost predicate SameEntries(status: seq<Entry>, status': seq<Entry>, g: Host) {
    forall e: Entry :: e.host == g ==> (e in status' <==> e in status)
  }

  /** The object still asks for the same and says the same about `g`. It goes only if it is
      being deleted and does not list `g`, and keeps a finalizer as long as it lists `g`. */
  ghost predicate ObjectKept(w: World, g: Host, w': World) {
    (w'.obj.Some? ==>
       w.obj.Some? && w'.obj.value.spec == w.obj.value.spec && w'.obj.value.deleting == w.obj.value.deleting
       && SameEntries(w.obj.value.status, w'.obj.value.status, g))
    && (w.obj.Some? && !w.obj.value.deleting ==> w'.obj.Some?)
    && (ListedIn(w, g) && w.obj.value.finalizers != [] ==> w'.obj.Some? && w'.obj.value.finalizers != [])
  }

  /** All that the rounds of `g` depend on is as before. */
  ghost predicate Kept(s: Setup, w: World, g: Host, w': World) {
    HeldRoute(s, w', g) == HeldRoute(s, w, g) && (g in w'.live <==> g in w.live) && ObjectKept(w, g, w')
  }

  lemma KeptListed(s: Setup, w: World, g: Host, w': World)
    requires Kept(s, w, g, w') && w'.obj.Some?
    ensures ListedIn(w', g) <==> ListedIn(w, g)
  { }

  lemma KeptOn(s: Setup, w: World, g: Host, w': World, w'': World)
    requires Kept(s, w, g, w') && Kept(s, w', g, w'')
    ensures Kept(s, w, g, w'')
  {
    if w'.obj.Some? {
      KeptListed(s, w, g, w');
    }
  }

  // ------------------------------------------------------------ rounds of other nodes

  /** An accepted write of `h` keeps the object for `g`. */
  lemma WriteKeepsObject(s: Setup, w: World, h: Host, p: Proc, c: Choice, g: Host)
    requires ValidSetup(s) && Steady(s, w, h, p) && HasCopy(p) && g != h
    requires var call := Pending(s.options(h), p);
             (call.CUpdate? || call.CStatusUpdate?) && Accepted(w, call.resource, c)
    ensures ObjectKept(w, g, Exec(w, h, Pending(s.options(h), p), c).0)
  {
    CurrentBase(s, w, h, p);
    var call := Pending(s.options(h), p);
    if call.CStatusUpdate? {
      OthersKept(w.obj.value.status, call.resource.status, h, g);
    }
  }

  lemma CallKeeps(s: Setup, w: World, h: Host, p: Proc, ch: Choices, g: Host)
    requires ValidSetup(s) && Steady(s, w, h, p) && !p.Done? && g != h
    ensures Kept(s, w, g, Answered(s, w, h, p, ch).0)
  {
    var call, c := Pending(s.options(h), p), ch(Rank(p));
    OthersHold(s, w, h, p, c, g);
    ExecFrame(w, h, call, c);
    if (call.CUpdate? || call.CStatusUpdate?) && Accepted(w, call.resource, c) {
      WriteKeepsObject(s, w, h, p, c, g);
    }
  }

  lemma {:induction false} StagesKeep(s: Setup, w: World, h: Host, p: Proc, ch: Choices, g: Host)
    requires ValidSetup(s) && Steady(s, w, h, p) && g != h
    ensures HistoryOk(RunToEnd(s, w, h, p, ch).world) && Kept(s, w, g, RunToEnd(s, w, h, p, ch).world)
    decreases Rank(p)
  {
    if !p.Done? {
      var (w', a) := Answered(s, w, h, p, ch);
      SteadyStep(s, w, h, p, ch);
      CallKeeps(s, w, h, p, ch, g);
      StagesKeep(s, w', h, Advance(s.options(h), p, a), ch, g);
      KeptOn(s, w, g, w', RunToEnd(s, w, h, p, ch).world);
    }
  }

  lemma {:induction false} StagesKeepHistory(s: Setup, w: World, h: Host, p: Proc, ch: Choices)
    requires ValidSetup(s) && Steady(s, w, h, p)
    ensures HistoryOk(RunToEnd(s, w, h, p, ch).world) && HistoryGrows(w, RunToEnd(s, w, h, p, ch).world)
    decreases Rank(p)
  {
    if !p.Done? {
      var (w', a) := Answered(s, w, h, p, ch);
      ExecStore(s, w, h, p, ch(Rank(p)));
      SteadyStep(s, w, h, p, ch);
      StagesKeepHistory(s, w', h, Advance(s.options(h), p, a), ch);
    }
  }

  /** A round of `h`, with any answers and failures, keeps what every other node depends on. */
  lemma RoundKeepsOthers(s: Setup, w: World, h: Host, ch: Choices, g: Host)
    requires ValidSetup(s) && HistoryOk(w) && g != h
    ensures Kept(s, w, g, Round(s, w, h, ch).world)
  {
    StagesKeep(s, w, h, AwaitGet, ch, g);
  }

  // ------------------------------------------------------------ everyone else

  /** Neither the user nor the node's own end. */
  predicate LeavesAlone(e: Outside, g: Host) {
    match e
    case Create(_) => false
    case Edit(_) => false
    case Delete => false
    case NodeGone(h) => h != g
    case CleanNode(_, _) => true
    case OtherRoute(_, _, _) => true
  }

  /** Nodes that vanish, the node cleaner and the other users of the managers keep it, too. */
  lemma OutsideKeepsOthers(s: Setup, w: World, e: Outside, g: Host)
    requires HistoryOk(w) && OutsideEnabled(s, w, e) && LeavesAlone(e, g) && g in w.live
    ensures Kept(s, w, g, AfterOutside(s, w, e))
  {
    var w' := AfterOutside(s, w, e);
    OutsideHolds(s, w, e, g);
    assert HeldRoute(s, w', g) == HeldRoute(s, w, g);
    if e.CleanNode? && w.obj.Some? && w.obj.value.version == e.seen {
      var t := w.obj.value.status;
      CleanedMentionsNoOne(t, e.host);
      OthersKept(t, Cut(t, e.host), e.host, g);
      CommitHistory(w, w.obj.value.(status := Cut(t, e.host)));
    }
  }
}
