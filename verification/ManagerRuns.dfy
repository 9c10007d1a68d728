/** Whole runs of the route manager: command history, lost routes, watcher notification. */
module ManagerRuns {
  import opened Optional
  import opened RouteManager

  // ------------------------------------------------------------ command history

  /** The managed routes rebuilt from the successful replies alone. */
  function Replay(replies: seq<(Request, Reply)>): Managed {
    if replies == [] then map[]
    else
      var m := Replay(replies[..|replies| - 1]);
      var (r, reply) := replies[|replies| - 1];
      if !reply.Ok? then m
      else match r
        case Register(name, route) => m[name := route]
        case Deregister(name) => m - {name}
  }

  /** The successful requests about one name, oldest first. */
  function Successes(replies: seq<(Request, Reply)>, name: string): seq<Request> {
    if replies == [] then []
    else
      var ss := Successes(replies[..|replies| - 1], name);
      var (r, reply) := replies[|replies| - 1];
      if reply.Ok? && r.name == name then ss + [r] else ss
  }

  /** The requests put to the manager, in the order in which it took them. */
  function Requests(es: seq<Event>): seq<Request> {
    if es == [] then []
    else
      var e := es[|es| - 1];
      Requests(es[..|es| - 1]) + if e.Command? then [e.request] else []
  }

  /** Register, deregister, register, ... */
  ghost predicate Alternates(ss: seq<Request>) {
    forall i :: 0 <= i < |ss| ==> (ss[i].Register? <==> i % 2 == 0)
  }

  ghost predicate HistoryLaw(s: State, name: string) {
    var ss := Successes(s.replies, name);
    Alternates(ss) && (name in s.managed <==> |ss| % 2 == 1)
    && (ss != [] && ss[|ss| - 1].Register? ==> name in s.managed && s.managed[name] == ss[|ss| - 1].route)
  }

  lemma SuccessesAppend(replies: seq<(Request, Reply)>, r: Request, reply: Reply, name: string)
    ensures Successes(replies + [(r, reply)], name) ==
            Successes(replies, name) + if reply.Ok? && r.name == name then [r] else []
  {
    assert (replies + [(r, reply)])[..|replies|] == replies;
  }

  /** A command appends one reply, about the request it was. */
  lemma CommandReplies(s: State, r: Request, fault: Option<Fault>, echo: bool) returns (reply: Reply)
    ensures AfterCommand(s, r, fault, echo).replies == s.replies + [(r, reply)]
    ensures reply.Ok? ==> (r.Register? <==> r.name !in s.managed)
    ensures AfterCommand(s, r, fault, echo).managed ==
            if !reply.Ok? then s.managed else if r.Register? then s.managed[r.name := r.route] else s.managed - {r.name}
  {
    reply := AfterCommand(s, r, fault, echo).replies[|s.replies|].1;
  }

  /** One success more: register after an even number of successes, deregister after an odd one. */
  lemma OneMoreSuccess(ss: seq<Request>, r: Request)
    requires Alternates(ss) && (r.Register? <==> |ss| % 2 == 0)
    ensures Alternates(ss + [r])
  { }

  lemma SuccessStep(s: State, r: Request, s': State)
    requires HistoryLaw(s, r.name) && (r.Register? <==> r.name !in s.managed)
    requires s'.replies == s.replies + [(r, Ok)]
    requires s'.managed == if r.Register? then s.managed[r.name := r.route] else s.managed - {r.name}
    ensures HistoryLaw(s', r.name)
  {
    SuccessesAppend(s.replies, r, Ok, r.name);
    OneMoreSuccess(Successes(s.replies, r.name), r);
  }

  lemma HistoryStep(s: State, e: Event, name: string)
    requires HistoryLaw(s, name)
    ensures HistoryLaw(Next(s, e), name)
  {
    if e.Command? {
      var reply := CommandReplies(s, e.request, e.fault, e.echo);
      if reply.Ok? && e.request.name == name {
        SuccessStep(s, e.request, Next(s, e));
      } else {
        SuccessesAppend(s.replies, e.request, reply, name);
      }
    }
  }

  /** Over every run, the successful replies for a name strictly alternate, starting with a
      register, and the name is managed iff the last of them was a register, with that route. */
  lemma {:induction false} RepliesAlternate(s: State, es: seq<Event>, name: string)
    requires Fresh(s)
    ensures var s' := Fold(s, es); var ss := Successes(s'.replies, name);
            Alternates(ss) &&
            (name in s'.managed <==> ss != [] && ss[|ss| - 1].Register?) &&
            (name in s'.managed ==> s'.managed[name] == ss[|ss| - 1].route)
  {
    HistoryHolds(s, es, name);
  }

  lemma {:induction false} HistoryHolds(s: State, es: seq<Event>, name: string)
    requires Fresh(s)
    ensures HistoryLaw(Fold(s, es), name)
  {
    if es != [] {
      HistoryHolds(s, es[..|es| - 1], name);
      HistoryStep(Fold(s, es[..|es| - 1]), es[|es| - 1], name);
    }
  }

  /** Over every run, the managed routes are the fold of the successful commands, and each
      request gets exactly one reply, in order. */
  lemma {:induction false} ManagedIsReplay(s: State, es: seq<Event>)
    requires Fresh(s)
    ensures Fold(s, es).managed == Replay(Fold(s, es).replies)
    ensures |Fold(s, es).replies| == |Requests(es)|
    ensures forall i :: 0 <= i < |Requests(es)| ==> Fold(s, es).replies[i].0 == Requests(es)[i]
  {
    if es != [] {
      var b, e := Fold(s, es[..|es| - 1]), es[|es| - 1];
      ManagedIsReplay(s, es[..|es| - 1]);
      var a := Next(b, e);
      if e.Command? {
        var last := a.replies[|a.replies| - 1];
        assert a.replies == b.replies + [last] && last.0 == e.request;
        assert a.replies[..|b.replies|] == b.replies;
      }
    }
  }

  // ------------------------------------------------------------ lost routes

  /** The loss of a managed route is known or about to be: the route is in the kernel, or its
      DELROUTE is still queued, or the watchers have been told since it was registered. */
  ghost predicate Accounted(s: State, name: string)
    requires name in s.managed
  {
    s.managed[name] in s.table || Update(true, s.managed[name]) in s.queue || name in s.told
  }

  ghost predicate NoMissedLoss(s: State) {
    forall name :: name in s.managed ==> Accounted(s, name)
  }

  /** The event is a deregistration that the kernel carries out. */
  ghost predicate Removes(s: State, e: Event) {
    e.Command? && e.request.Deregister? && e.fault.None?
    && e.request.name in s.managed && s.managed[e.request.name] in s.table
  }

  /** The names that share the route of `name`. */
  ghost function Sharers(s: State, name: string): set<string>
    requires name in s.managed
  {
    set n | n in s.managed && n != name && s.managed[n] == s.managed[name]
  }

  /** A removal that the kernel does not report back takes the route from under every sharer: the
      watchers must already know, or be about to. */
  ghost predicate LossSafe(s: State, e: Event) {
    Removes(s, e) && !e.echo ==>
      forall n :: n in Sharers(s, e.request.name) ==> Update(true, s.managed[n]) in s.queue || n in s.told
  }

  lemma QueuedStays(s: State, e: Event, lost: Update)
    requires lost in s.queue && lost.deleted
    ensures lost in Next(s, e).queue || (e.Receive? && s.queue[0] == lost)
  {
    var s' := Next(s, e);
    var i :| 0 <= i < |s.queue| && s.queue[i] == lost;
    if e.Receive? {
      assert i > 0 ==> s.queue[1..][i - 1] == lost;
    } else {
      assert |s'.queue| >= |s.queue| && s'.queue[i] == lost;
    }
  }

  /** A managed name stays accounted for, unless its route is removed unreported. */
  lemma LossStepAt(s: State, e: Event, name: string)
    requires name in s.managed && Accounted(s, name) && LossSafe(s, e)
    requires var s' := Next(s, e); name in s'.managed && s'.managed[name] == s.managed[name]
    ensures Accounted(Next(s, e), name)
  {
    var s', lost := Next(s, e), Update(true, s.managed[name]);
    if lost in s.queue {
      QueuedStays(s, e, lost);
      assert IsManaged(s.managed, lost.route);
    } else if s.managed[name] in s.table && s.managed[name] !in s'.table {
      if Removes(s, e) && !e.echo {
        assert name in Sharers(s, e.request.name);
      } else {
        assert s'.queue[|s.queue|] == lost;
      }
    }
  }

  lemma LossStep(s: State, e: Event)
    requires NoMissedLoss(s) && LossSafe(s, e)
    ensures NoMissedLoss(Next(s, e))
  {
    var s' := Next(s, e);
    forall name | name in s'.managed ensures Accounted(s', name) {
      if name in s.managed && s'.managed[name] == s.managed[name] {
        assert Accounted(s, name);
        LossStepAt(s, e, name);
      }
    }
  }

  /** The exact condition of one event: losses stay accounted for iff the event is not a removal
      that the kernel keeps to itself under a sharer whose loss nobody knows of. */
  lemma LossStepExactly(s: State, e: Event)
    requires NoMissedLoss(s)
    ensures NoMissedLoss(Next(s, e)) <==> LossSafe(s, e)
  {
    if LossSafe(s, e) {
      LossStep(s, e);
    } else {
      var n :| n in Sharers(s, e.request.name) && Update(true, s.managed[n]) !in s.queue && n !in s.told;
      assert n in Next(s, e).managed && !Accounted(Next(s, e), n);
    }
  }

  /** Up to event `k` of a run, losses are accounted for. */
  ghost predicate LossesKnown(s: State, es: seq<Event>, n: nat)
    requires n <= |es|
  {
    forall k :: 0 <= k <= n ==> NoMissedLoss(Fold(s, es[..k]))
  }

  ghost predicate LossSafeRun(s: State, es: seq<Event>, n: nat)
    requires n <= |es|
  {
    forall k :: 0 <= k < n ==> LossSafe(Fold(s, es[..k]), es[k])
  }

  lemma FoldOne(s: State, es: seq<Event>, k: nat)
    requires k < |es|
    ensures Fold(s, es[..k + 1]) == Next(Fold(s, es[..k]), es[k])
  {
    assert es[..k + 1][..k] == es[..k];
  }

  /** Over every run, with any outside changes and kernel errors, each managed
      route is always in the kernel, or its loss is queued or told, iff no event of the run is
      such a removal. */
  lemma {:induction false} LossesAccounted(s: State, es: seq<Event>, n: nat)
    requires Fresh(s) && n <= |es|
    ensures LossesKnown(s, es, n) <==> LossSafeRun(s, es, n)
  {
    if n > 0 {
      LossesAccounted(s, es, n - 1);
      FoldOne(s, es, n - 1);
      if LossesKnown(s, es, n - 1) {
        LossStepExactly(Fold(s, es[..n - 1]), es[n - 1]);
      }
    }
  }

  /** The shortest run that misses a loss: two names for one route, one of them deregistered
      without a report from the kernel. */
  function SharedRoute(a: string, b: string, route: Route): seq<Event> {
    [Command(Register(a, route), None, false)] + [Command(Register(b, route), None, false)]
    + [Command(Deregister(a), None, false)]
  }

  lemma SharedLossIsMissed(s: State, a: string, b: string, route: Route)
    requires Fresh(s) && a != b
    ensures NoMissedLoss(Fold(s, SharedRoute(a, b, route))) <==> Update(true, route) in s.queue
  {
    var es := SharedRoute(a, b, route);
    FoldOne(s, es, 0);
    FoldOne(s, es, 1);
    FoldOne(s, es, 2);
    assert es[..0] == [] && es[..3] == es;
    assert Accounted(Fold(s, es), b) <==> Update(true, route) in s.queue;
  }

  // ------------------------------------------------------------ the kernel's table

  ghost predicate AllInKernel(s: State) {
    forall name :: name in s.managed ==> s.managed[name] in s.table
  }

  /** Nobody deletes a managed route, and no removal is of a shared one. */
  ghost predicate KernelSafe(s: State, e: Event) {
    (e.Outside? && e.update.deleted ==> !IsManaged(s.managed, e.update.route))
    && (Removes(s, e) ==> Sharers(s, e.request.name) == {})
  }

  lemma KernelStepExactly(s: State, e: Event)
    requires AllInKernel(s)
    ensures AllInKernel(Next(s, e)) <==> KernelSafe(s, e)
  {
    var s' := Next(s, e);
    if Removes(s, e) {
      forall n | n in Sharers(s, e.request.name) ensures !AllInKernel(s') {
        assert n in s'.managed && s'.managed[n] !in s'.table;
      }
      if Sharers(s, e.request.name) == {} {
        forall n | n in s'.managed ensures s'.managed[n] in s'.table {
          assert n !in Sharers(s, e.request.name);
        }
      }
    } else if e.Outside? && e.update.deleted && IsManaged(s.managed, e.update.route) {
      var n :| n in s.managed && s.managed[n] == e.update.route;
      assert n in s'.managed && s'.managed[n] !in s'.table;
    }
  }

  ghost predicate InKernel(s: State, es: seq<Event>, n: nat)
    requires n <= |es|
  {
    forall k :: 0 <= k <= n ==> AllInKernel(Fold(s, es[..k]))
  }

  ghost predicate KernelSafeRun(s: State, es: seq<Event>, n: nat)
    requires n <= |es|
  {
    forall k :: 0 <= k < n ==> KernelSafe(Fold(s, es[..k]), es[k])
  }

  /** Over every run, all managed routes are in the kernel throughout iff nobody outside deletes
      a managed route and no deregistration removes a shared one. */
  lemma {:induction false} ManagedInKernel(s: State, es: seq<Event>, n: nat)
    requires Fresh(s) && n <= |es|
    ensures InKernel(s, es, n) <==> KernelSafeRun(s, es, n)
  {
    if n > 0 {
      ManagedInKernel(s, es, n - 1);
      FoldOne(s, es, n - 1);
      if InKernel(s, es, n - 1) {
        KernelStepExactly(Fold(s, es[..n - 1]), es[n - 1]);
      }
    }
  }

  // ------------------------------------------------------------ watchers

  /** The callbacks of one deletion when the managed routes are visited in a given order,
      stopping at the first that equals the deleted route. */
  function Visit(m: Managed, order: seq<string>, ws: seq<Watcher>, route: Route): seq<(Watcher, Route)>
    requires forall n :: n in order ==> n in m
  {
    if order == [] then []
    else if m[order[0]] == route then CallAll(ws, route)
    else Visit(m, order[1..], ws, route)
  }

  /** Notification does not depend on the order in which the map is visited: in every order
      the watchers are called once each, in list order, iff some managed route equals the
      deleted one, however many names share it. */
  lemma {:induction false} VisitAnyOrder(m: Managed, order: seq<string>, ws: seq<Watcher>, route: Route)
    requires forall n :: n in order ==> n in m
    ensures Visit(m, order, ws, route) ==
            if exists n :: n in order && m[n] == route then CallAll(ws, route) else []
  {
    if order != [] && m[order[0]] != route {
      VisitAnyOrder(m, order[1..], ws, route);
      assert forall n :: n in order <==> n == order[0] || n in order[1..];
    } else if order != [] {
      assert order[0] in order;
    }
  }

  lemma NotificationOrderFree(s: State, order: seq<string>, u: Update)
    requires forall n :: n in order <==> n in s.managed
    ensures AfterUpdate(s, u).callbacks ==
            s.callbacks + if u.deleted then Visit(s.managed, order, s.watchers, u.route) else []
  {
    VisitAnyOrder(s.managed, order, s.watchers, u.route);
    if n :| n in s.managed && s.managed[n] == u.route {
      assert n in order;
    }
  }

  /** Deregistering a watcher drops its first occurrence and keeps the order of the rest. */
  lemma {:induction false} FirstOccurrenceDropped(ws: seq<Watcher>, w: Watcher, i: nat)
    requires i < |ws| && ws[i] == w && w !in ws[..i]
    ensures DropFirst(ws, w) == ws[..i] + ws[i + 1..]
  {
    if i > 0 {
      assert ws[..i] == [ws[0]] + ws[1..i];
      assert ws[1..][..i - 1] == ws[1..i];
      FirstOccurrenceDropped(ws[1..], w, i - 1);
      assert ws[1..][i..] == ws[i + 1..];
    }
  }

  lemma {:induction false} AbsentWatcherKept(ws: seq<Watcher>, w: Watcher)
    requires w !in ws
    ensures DropFirst(ws, w) == ws
  {
    if ws != [] {
      AbsentWatcherKept(ws[1..], w);
    }
  }
}
