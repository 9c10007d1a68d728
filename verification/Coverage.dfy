/** Call by call: when does a live holder of the route lose its cover, so that nobody waits for it
    when the CR goes? A holder is covered if the CR shields it, or if its own round is about to
    report it. */
module Coverage {
  import opened Optional
  import opened StaticRoutes
  import opened RouteManager
  import opened Reconcile
  import opened Cluster
  import opened FineSteps

  /** The node's round stands at its report, with a copy of a version that had a finalizer and was
      not being deleted. */
  predicate Reporting(w: World, g: Host) {
    g in w.procs && w.procs[g].AwaitReport? && !w.procs[g].w.deleting
    && w.procs[g].w.version in w.hist && w.hist[w.procs[g].w.version].finalizers != []
  }

  ghost predicate CoveredAt(w: World, g: Host) {
    Shielded(w, g) || Reporting(w, g)
  }

  ghost predicate Covered(s: Setup, w: World) {
    forall g :: g in w.live && Holds(s, w, g) ==> CoveredAt(w, g)
  }

  // ------------------------------------------------------------ the two ways to lose cover

  /** The report of a holder that the CR does not shield is refused. */
  ghost predicate ReportRefused(s: Setup, w: World, h: Host, p: Proc, c: Choice) {
    p.AwaitReport? && Holds(s, w, h) && !Accepted(w, p.w, c)
  }

  predicate Registers(s: Setup, w: World, h: Host, p: Proc, c: Choice) {
    p.AwaitRegister? && !Holds(s, w, h) && (c.fail.Some? ==> c.fail.value == EEXIST)
  }

  /** A registration succeeds from a copy whose status already says so: no report will follow. */
  ghost predicate RegistersSilently(s: Setup, w: World, h: Host, p: Proc, c: Choice) {
    Registers(s, w, h, p, c) && StatusMatch(p.w.status, h, p.w.spec, Some(p.gw), None)
  }

  ghost predicate Uncovers(s: Setup, w: World, a: Step) {
    a.Proceed? && a.h in w.procs && !Shielded(w, a.h)
    && (ReportRefused(s, w, a.h, w.procs[a.h], a.c) || RegistersSilently(s, w, a.h, w.procs[a.h], a.c))
  }

  // ------------------------------------------------------------ steps

  /** A shielded holder stays shielded, whoever moves. */
  lemma ShieldStays(s: Setup, w: World, a: Step, w': World, g: Host)
    requires ValidSetup(s) && FineInv(s, w) && StepsTo(s, w, a, w')
    requires g in w.live && Holds(s, w, g) && Shielded(w, g)
    ensures Shielded(w', g)
  {
    ListedHolderStays(s, w, a, w', g);
    if w'.obj.None? || w'.obj.value.finalizers == [] {
      ClearFindsEmptyStatus(s, w, a, w');
    }
  }

  lemma HoldsBefore(s: Setup, w: World, a: Step, w': World, g: Host)
    requires StepsTo(s, w, a, w') && (a.Proceed? ==> a.h != g || !w.procs[g].AwaitRegister?)
    requires g in w'.live && Holds(s, w', g)
    ensures g in w.live && Holds(s, w, g)
  {
    if a.Other? {
      OutsideHolds(s, w, a.e, g);
    } else if a.Proceed? && a.h != g {
      OthersHold(s, w, a.h, w.procs[a.h], a.c, g);
    }
  }

  lemma StepGrowsHistory(s: Setup, w: World, a: Step, w': World)
    requires ValidSetup(s) && FineInv(s, w) && StepsTo(s, w, a, w')
    ensures HistoryGrows(w, w')
  {
    if a.Proceed? {
      assert ProcOk(s, w, a.h, w.procs[a.h]);
      ExecStore(s, w, a.h, w.procs[a.h], a.c);
    } else if a.Other? {
      OutsideStore(s, w, a.e);
    }
  }

  lemma ReportingStays(s: Setup, w: World, a: Step, w': World, g: Host)
    requires ValidSetup(s) && FineInv(s, w) && StepsTo(s, w, a, w') && (a.Proceed? ==> a.h != g)
    requires Reporting(w, g) && g in w'.live
    ensures Reporting(w', g)
  {
    StepGrowsHistory(s, w, a, w');
    OwnStageStays(s, w, a, w', g);
  }

  lemma OwnStageStays(s: Setup, w: World, a: Step, w': World, g: Host)
    requires StepsTo(s, w, a, w') && (a.Proceed? ==> a.h != g)
    requires g in w.procs && w.procs[g].AwaitReport? && g in w'.live
    ensures g in w'.procs && w'.procs[g] == w.procs[g]
  {
    if a.Proceed? {
      ExecFrame(w, a.h, Pending(s.options(a.h), w.procs[a.h]), a.c);
    }
  }

  /** No step of another node, or of anyone else, uncovers a node. */
  lemma OthersCovered(s: Setup, w: World, a: Step, w': World, g: Host)
    requires ValidSetup(s) && FineInv(s, w) && Covered(s, w) && StepsTo(s, w, a, w') && (a.Proceed? ==> a.h != g)
    requires g in w'.live && Holds(s, w', g)
    ensures CoveredAt(w', g)
  {
    HoldsBefore(s, w, a, w', g);
    if Shielded(w, g) {
      ShieldStays(s, w, a, w', g);
    } else {
      ReportingStays(s, w, a, w', g);
    }
  }

  lemma OwnReport(s: Setup, w: World, h: Host, c: Choice, w': World)
    requires ValidSetup(s) && FineInv(s, w) && Covered(s, w) && StepsTo(s, w, Proceed(h, c), w')
    requires w.procs[h].AwaitReport? && Holds(s, w', h)
    ensures CoveredAt(w', h) <==> !Uncovers(s, w, Proceed(h, c))
  {
    var p := w.procs[h];
    assert ProcOk(s, w, h, p) && Holds(s, w, h) && h in w.live;
    if Accepted(w, p.w, c) {
      assert w.hist[p.w.version] == w.obj.value;
    }
  }

  /** A registration leaves the store alone, and the round goes on to its report if it needs one. */
  lemma RegisterStep(s: Setup, w: World, h: Host, c: Choice, w': World)
    requires ValidSetup(s) && StepsTo(s, w, Proceed(h, c), w') && w.procs[h].AwaitRegister?
    ensures w'.obj == w.obj && w'.hist == w.hist && h in w'.procs
    ensures Registers(s, w, h, w.procs[h], c) ==>
              var p := w.procs[h];
              w'.procs[h] == Finish(s.options(h), true, p.w, Some(p.gw), Finished, None)
    ensures !Registers(s, w, h, w.procs[h], c) ==> (Holds(s, w', h) <==> Holds(s, w, h))
  { }

  lemma RegisteredReports(s: Setup, w: World, h: Host, p: Proc)
    requires ValidSetup(s) && ProcOk(s, w, h, p) && p.AwaitRegister?
    ensures var q := Finish(s.options(h), true, p.w, Some(p.gw), Finished, None);
            if StatusMatch(p.w.status, h, p.w.spec, Some(p.gw), None) then q.Done?
            else q.AwaitReport? && q.w.version == p.w.version && q.w.version in w.hist && !q.w.deleting
                 && w.hist[q.w.version].finalizers != []
  { }

  lemma OwnRegister(s: Setup, w: World, h: Host, c: Choice, w': World)
    requires ValidSetup(s) && FineInv(s, w) && Covered(s, w) && StepsTo(s, w, Proceed(h, c), w')
    requires w.procs[h].AwaitRegister? && Holds(s, w', h)
    ensures CoveredAt(w', h) <==> !Uncovers(s, w, Proceed(h, c))
  {
    var p := w.procs[h];
    RegisterStep(s, w, h, c, w');
    if Registers(s, w, h, p, c) {
      RegisteredReports(s, w, h, p);
    } else {
      assert h in w.live && Shielded(w, h);
    }
  }

  lemma OwnOther(s: Setup, w: World, h: Host, c: Choice, w': World)
    requires ValidSetup(s) && FineInv(s, w) && Covered(s, w) && StepsTo(s, w, Proceed(h, c), w')
    requires !w.procs[h].AwaitReport? && !w.procs[h].AwaitRegister? && Holds(s, w', h)
    ensures CoveredAt(w', h)
  {
    assert h in w.procs && h in w.live && h in w'.live;
    HoldsBefore(s, w, Proceed(h, c), w', h);
    ShieldStays(s, w, Proceed(h, c), w', h);
  }

  /** The exact condition of one step, in any interleaving: from a covered state it leaves a live
      holder uncovered iff it is one of the two. */
  lemma StepCoversExactly(s: Setup, w: World, a: Step, w': World)
    requires ValidSetup(s) && FineInv(s, w) && Covered(s, w) && StepsTo(s, w, a, w')
    ensures Covered(s, w') <==> !Uncovers(s, w, a)
  {
    forall g | g in w'.live && Holds(s, w', g) && (a.Proceed? ==> a.h != g) ensures CoveredAt(w', g) {
      OthersCovered(s, w, a, w', g);
    }
    if a.Proceed? {
      OwnStep(s, w, a.h, a.c, w');
    }
  }

  /** A node whose call uncovers it lives and holds the route afterwards. */
  lemma StillLiving(s: Setup, w: World, h: Host, c: Choice, w': World)
    requires FineInv(s, w) && StepsTo(s, w, Proceed(h, c), w') && ValidSetup(s)
    ensures h in w.live && h in w'.live && (Uncovers(s, w, Proceed(h, c)) ==> Holds(s, w', h))
  {
    ExecFrame(w, h, Pending(s.options(h), w.procs[h]), c);
  }

  lemma OwnStep(s: Setup, w: World, h: Host, c: Choice, w': World)
    requires ValidSetup(s) && FineInv(s, w) && Covered(s, w) && StepsTo(s, w, Proceed(h, c), w')
    ensures h in w'.live && (Uncovers(s, w, Proceed(h, c)) ==> Holds(s, w', h))
    ensures Holds(s, w', h) ==> (CoveredAt(w', h) <==> !Uncovers(s, w, Proceed(h, c)))
  {
    var p := w.procs[h];
    StillLiving(s, w, h, c, w');
    if Holds(s, w', h) {
      if p.AwaitReport? { OwnReport(s, w, h, c, w'); }
      else if p.AwaitRegister? { OwnRegister(s, w, h, c, w'); }
      else { OwnOther(s, w, h, c, w'); }
    }
  }

  // ------------------------------------------------------------ whole runs

  ghost predicate NothingUncovers(s: Setup, ws: seq<World>, steps: seq<Step>, n: nat)
    requires n <= |steps| <= |ws|
  {
    forall k :: 0 <= k < n ==> !Uncovers(s, ws[k], steps[k])
  }

  ghost predicate CoveredUpTo(s: Setup, ws: seq<World>, n: nat)
    requires n < |ws|
  {
    forall k :: 0 <= k <= n ==> Covered(s, ws[k])
  }

  /** The exact condition of whole runs: every state is covered iff no step is one of the two. */
  lemma {:induction false} RunsCoverExactly(s: Setup, ws: seq<World>, steps: seq<Step>, n: nat)
    requires ValidSetup(s) && IsRun(s, ws, steps) && n <= |steps|
    ensures CoveredUpTo(s, ws, n) <==> NothingUncovers(s, ws, steps, n)
  {
    if n > 0 {
      RunsCoverExactly(s, ws, steps, n - 1);
      if CoveredUpTo(s, ws, n - 1) {
        RunKeeps(s, ws, steps, n - 1);
        RunStep(s, ws, steps, n - 1);
        StepCoversExactly(s, ws[n - 1], steps[n - 1], ws[n]);
      }
    }
  }

  // ------------------------------------------------------------ the end of the CR

  ghost predicate HeldNowhere(s: Setup, w: World) {
    forall g :: g in w.live ==> !Holds(s, w, g)
  }

  /** No round of a live holder stands at its report. */
  ghost predicate NobodyReporting(s: Setup, w: World) {
    forall g :: g in w.live && Reporting(w, g) ==> !Holds(s, w, g)
  }

  /** A step that takes the finalizers away is an accepted write, which moves no route. */
  lemma ClearMovesNoRoute(s: Setup, w: World, a: Step, w': World, g: Host)
    requires StepsTo(s, w, a, w') && w.obj.Some? && w.obj.value.finalizers != []
    requires w'.obj.None? || w'.obj.value.finalizers == []
    ensures (g in w'.live <==> g in w.live) && (Holds(s, w', g) <==> Holds(s, w, g))
  {
    if a.Other? {
      OutsideHolds(s, w, a.e, g);
    }
  }

  /** In every run without such a step, when the finalizers go the only live managers with the route
      are those whose rounds stand at their report; so nobody has it iff there is none. */
  lemma ReleasedExactlyIf(s: Setup, ws: seq<World>, steps: seq<Step>, i: nat)
    requires ValidSetup(s) && IsRun(s, ws, steps) && i < |steps| && NothingUncovers(s, ws, steps, i)
    requires ws[i].obj.Some? && ws[i].obj.value.finalizers != []
    requires ws[i + 1].obj.None? || ws[i + 1].obj.value.finalizers == []
    ensures forall g :: g in ws[i].live && Holds(s, ws[i], g) ==> Reporting(ws[i], g)
    ensures HeldNowhere(s, ws[i + 1]) <==> NobodyReporting(s, ws[i])
  {
    RunsCoverExactly(s, ws, steps, i);
    FinalizersGoLast(s, ws, steps, i);
    RunStep(s, ws, steps, i);
    var w, w' := ws[i], ws[i + 1];
    assert Covered(s, w);
    forall g ensures (g in w'.live <==> g in w.live) && (Holds(s, w', g) <==> Holds(s, w, g)) {
      ClearMovesNoRoute(s, w, steps[i], w', g);
    }
  }
}
