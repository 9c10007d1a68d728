/** Who is called when a route is lost: the watchers of a run told from its events alone, and the
    callbacks they get. */
module WatcherRuns {
  import opened RouteManager
  import opened ManagerRuns

  // ------------------------------------------------------------ who is registered

  /** How often a watcher has been added from position `i` on. */
  function AddsFrom(es: seq<Event>, w: Watcher, i: nat): nat
    requires i <= |es|
    decreases |es| - i
  {
    if i == |es| then 0 else (if es[i] == AddWatcher(w) then 1 else 0) + AddsFrom(es, w, i + 1)
  }

  /** How many of its registrations stand: each drop takes one back, if there is one. */
  function Standing(es: seq<Event>, w: Watcher): nat {
    if es == [] then 0
    else
      var n := Standing(es[..|es| - 1], w);
      match es[|es| - 1]
      case AddWatcher(x) => if x == w then n + 1 else n
      case DropWatcher(x) => if x == w && n > 0 then n - 1 else n
      case _ => n
  }

  function StandingIn(es: seq<Event>): Watcher -> nat {
    (w: Watcher) => Standing(es, w)
  }

  /** The registration at position `i` stands: drops take the oldest first, so the standing ones of
      a watcher are its latest. */
  predicate Stays(es: seq<Event>, i: nat, standing: Watcher -> nat)
    requires i < |es|
  {
    es[i].AddWatcher? && AddsFrom(es, es[i].watcher, i) <= standing(es[i].watcher)
  }

  /** The watchers of the standing registrations up to position `n`, in the order of registration. */
  function Registered(es: seq<Event>, n: nat, standing: Watcher -> nat): seq<Watcher>
    requires n <= |es|
  {
    if n == 0 then []
    else Registered(es, n - 1, standing) + if Stays(es, n - 1, standing) then [es[n - 1].watcher] else []
  }

  function RegisteredWatchers(es: seq<Event>): seq<Watcher> {
    Registered(es, |es|, StandingIn(es))
  }

  lemma {:induction false} AddsAppend(es: seq<Event>, e: Event, w: Watcher, i: nat)
    requires i <= |es|
    ensures AddsFrom(es + [e], w, i) == AddsFrom(es, w, i) + if e == AddWatcher(w) then 1 else 0
    decreases |es| - i
  {
    if i < |es| {
      AddsAppend(es, e, w, i + 1);
    }
  }

  lemma {:induction false} StandingWithin(es: seq<Event>, w: Watcher)
    ensures Standing(es, w) <= AddsFrom(es, w, 0)
  {
    if es != [] {
      var init, e := es[..|es| - 1], es[|es| - 1];
      StandingWithin(init, w);
      AddsAppend(init, e, w, 0);
      assert es == init + [e];
    }
  }

  /** An event that is no registration leaves the earlier positions as they were. */
  lemma {:induction false} RegisteredExtends(es: seq<Event>, e: Event, n: nat, standing: Watcher -> nat,
                                             standing': Watcher -> nat)
    requires n <= |es|
    requires forall w :: standing'(w) == standing(w) + if e == AddWatcher(w) then 1 else 0
    ensures Registered(es + [e], n, standing') == Registered(es, n, standing)
  {
    if n > 0 {
      RegisteredExtends(es, e, n - 1, standing, standing');
      if es[n - 1].AddWatcher? {
        AddsAppend(es, e, es[n - 1].watcher, n - 1);
      }
    }
  }

  lemma {:induction false} DropFirstAbsent(ws: seq<Watcher>, w: Watcher, more: seq<Watcher>)
    requires w !in ws
    ensures DropFirst(ws + more, w) == ws + DropFirst(more, w)
  {
    if ws == [] {
      assert ws + more == more;
    } else {
      assert (ws + more)[1..] == ws[1..] + more;
      DropFirstAbsent(ws[1..], w, more);
    }
  }

  lemma {:induction false} DropFirstPresent(ws: seq<Watcher>, w: Watcher, more: seq<Watcher>)
    requires w in ws
    ensures DropFirst(ws + more, w) == DropFirst(ws, w) + more
  {
    assert (ws + more)[1..] == ws[1..] + more;
    if ws[0] != w {
      DropFirstPresent(ws[1..], w, more);
    }
  }

  /** One registration of `w` less stands: the oldest of them goes. */
  lemma {:induction false} OldestGoes(es: seq<Event>, w: Watcher, n: nat, standing: Watcher -> nat,
                                      standing': Watcher -> nat)
    requires n <= |es| && 0 < standing(w) <= AddsFrom(es, w, 0)
    requires standing'(w) == standing(w) - 1 && forall x :: x != w ==> standing'(x) == standing(x)
    ensures w in Registered(es, n, standing) <==> AddsFrom(es, w, n) < standing(w)
    ensures Registered(es, n, standing') == DropFirst(Registered(es, n, standing), w)
  {
    if n > 0 {
      OldestGoes(es, w, n - 1, standing, standing');
      var ws := Registered(es, n - 1, standing);
      var last := if Stays(es, n - 1, standing) then [es[n - 1].watcher] else [];
      var last' := if Stays(es, n - 1, standing') then [es[n - 1].watcher] else [];
      if w in ws {
        DropFirstPresent(ws, w, last);
        assert last' == last;
      } else {
        DropFirstAbsent(ws, w, last);
        AbsentWatcherKept(ws, w);
        assert last' == DropFirst(last, w);
      }
    }
  }

  lemma {:induction false} NoneToDrop(es: seq<Event>, w: Watcher, n: nat, standing: Watcher -> nat)
    requires n <= |es| && standing(w) == 0
    ensures w !in Registered(es, n, standing)
  {
    if n > 0 {
      NoneToDrop(es, w, n - 1, standing);
      assert es[n - 1] == AddWatcher(w) ==> AddsFrom(es, w, n - 1) > 0;
    }
  }

  /** The registered watchers after one event more. */
  lemma RegisteredStep(es: seq<Event>, e: Event)
    ensures RegisteredWatchers(es + [e]) ==
            match e
            case AddWatcher(w) => RegisteredWatchers(es) + [w]
            case DropWatcher(w) => DropFirst(RegisteredWatchers(es), w)
            case _ => RegisteredWatchers(es)
  {
    var more := es + [e];
    assert more[..|es|] == es;
    var before, after := StandingIn(es), StandingIn(more);
    if e.DropWatcher? {
      StandingWithin(es, e.watcher);
      RegisteredExtends(es, e, |es|, after, after);
      if Standing(es, e.watcher) > 0 {
        OldestGoes(es, e.watcher, |es|, before, after);
      } else {
        NoneToDrop(es, e.watcher, |es|, before);
        AbsentWatcherKept(RegisteredWatchers(es), e.watcher);
        SameStanding(es, |es|, before, after);
      }
    } else {
      forall w ensures after(w) == before(w) + if e == AddWatcher(w) then 1 else 0 {
        assert Standing(more, w) == Standing(es, w) + if e == AddWatcher(w) then 1 else 0;
      }
      RegisteredExtends(es, e, |es|, before, after);
      if e.AddWatcher? {
        AddsAppend(es, e, e.watcher, |es|);
        assert Stays(more, |es|, after);
      }
    }
  }

  lemma {:induction false} SameStanding(es: seq<Event>, n: nat, standing: Watcher -> nat, standing': Watcher -> nat)
    requires n <= |es| && forall w :: standing'(w) == standing(w)
    ensures Registered(es, n, standing') == Registered(es, n, standing)
  {
    if n > 0 {
      SameStanding(es, n - 1, standing, standing');
    }
  }

  /** Over every run from a manager without watchers, its watchers are those of the standing
      registrations, in the order of registration. */
  lemma {:induction false} WatchersAreRegistered(s: State, es: seq<Event>)
    requires s.watchers == []
    ensures Fold(s, es).watchers == RegisteredWatchers(es)
  {
    if es != [] {
      var init, e := es[..|es| - 1], es[|es| - 1];
      WatchersAreRegistered(s, init);
      RegisteredStep(init, e);
      assert es == init + [e];
    }
  }

  // ------------------------------------------------------------ who is called

  /** Event `k` is the receipt of a DELROUTE for this route. */
  ghost predicate ReceivesLoss(s: State, es: seq<Event>, k: nat, route: Route)
    requires k < |es|
  {
    var b := Fold(s, es[..k]);
    es[k].Receive? && b.queue != [] && b.queue[0] == Update(true, route)
  }

  /** Every watcher in the list has got one callback with the route, in order, from position `at`. */
  ghost predicate Called(callbacks: seq<(Watcher, Route)>, at: nat, ws: seq<Watcher>, route: Route) {
    at + |ws| <= |callbacks| && forall i :: 0 <= i < |ws| ==> callbacks[at + i] == (ws[i], route)
  }

  predicate IsLoss(b: State, e: Event) {
    e.Receive? && b.queue != [] && b.queue[0].deleted
  }

  /** The callbacks of one event. */
  lemma NextCalls(b: State, e: Event)
    ensures Next(b, e).callbacks ==
            b.callbacks + if IsLoss(b, e) && b.queue[0].route in b.managed.Values
                          then CallAll(b.watchers, b.queue[0].route) else []
  {
    if IsLoss(b, e) {
      assert b.queue[0].route in b.managed.Values <==> IsManaged(b.managed, b.queue[0].route);
    }
  }

  /** The callbacks of every event: when the loss of a managed route is received, each registered
      watcher is called once with it; no other event calls anybody. */
  lemma CallbacksExactly(s: State, es: seq<Event>, k: nat)
    requires s.watchers == [] && k < |es|
    ensures var before, after := Fold(s, es[..k]), Fold(s, es[..k + 1]);
            before.callbacks <= after.callbacks
            && (forall route :: ReceivesLoss(s, es, k, route) && route in before.managed.Values ==>
                  |after.callbacks| == |before.callbacks| + |RegisteredWatchers(es[..k])|
                  && Called(after.callbacks, |before.callbacks|, RegisteredWatchers(es[..k]), route))
            && ((forall route :: ReceivesLoss(s, es, k, route) ==> route !in before.managed.Values) ==>
                  after.callbacks == before.callbacks)
  {
    var before := Fold(s, es[..k]);
    FoldOne(s, es, k);
    WatchersAreRegistered(s, es[..k]);
    NextCalls(before, es[k]);
    if IsLoss(before, es[k]) {
      assert ReceivesLoss(s, es, k, before.queue[0].route);
    }
  }

  lemma NextGrows(s: State, e: Event)
    ensures s.callbacks <= Next(s, e).callbacks
  { }

  lemma {:induction false} CallbacksGrow(s: State, es: seq<Event>, i: nat, j: nat)
    requires i <= j <= |es|
    ensures Fold(s, es[..i]).callbacks <= Fold(s, es[..j]).callbacks
  {
    if i < j {
      var k := j - 1;
      CallbacksGrow(s, es, i, k);
      FoldOne(s, es, k);
      NextGrows(Fold(s, es[..k]), es[k]);
    }
  }

  /** The name manages the route from position `i` on. */
  ghost predicate ManagedSince(s: State, es: seq<Event>, i: nat, name: string, route: Route)
    requires i <= |es|
  {
    forall j :: i <= j <= |es| ==> name in Fold(s, es[..j]).managed && Fold(s, es[..j]).managed[name] == route
  }

  /** At event `k` the loss of the name's route was received, after its registration, and all
      watchers registered then have been called. */
  ghost predicate CalledAt(s: State, es: seq<Event>, k: nat, name: string, route: Route)
    requires k < |es|
  {
    ReceivesLoss(s, es, k, route) && ManagedSince(s, es, k, name, route)
    && Called(Fold(s, es).callbacks, |Fold(s, es[..k]).callbacks|, RegisteredWatchers(es[..k]), route)
  }

  ghost predicate WatchersCalled(s: State, es: seq<Event>, name: string, route: Route) {
    exists k :: 0 <= k < |es| && CalledAt(s, es, k, name, route)
  }

  /** A received loss leads to the calls. */
  lemma LossCalls(s: State, es: seq<Event>, k: nat, name: string, route: Route)
    requires s.watchers == [] && k < |es|
    requires ReceivesLoss(s, es, k, route) && ManagedSince(s, es, k, name, route)
    ensures CalledAt(s, es, k, name, route)
  {
    CallbacksExactly(s, es, k);
    CallbacksGrow(s, es, k + 1, |es|);
    assert es[..|es|] == es;
    assert name in Fold(s, es[..k]).managed && Fold(s, es[..k]).managed[name] == route;
  }

  lemma SinceOneMore(s: State, es: seq<Event>, e: Event, k: nat, name: string, route: Route)
    requires k <= |es|
    ensures ManagedSince(s, es + [e], k, name, route) <==>
            ManagedSince(s, es, k, name, route)
            && name in Fold(s, es + [e]).managed && Fold(s, es + [e]).managed[name] == route
  {
    var more := es + [e];
    assert more[..|more|] == more;
    forall j | 0 <= j <= |es| ensures more[..j] == es[..j] { }
  }

  /** One event more: the name has been told before and is still managed, or its loss is received. */
  lemma CalledStep(s: State, es: seq<Event>, e: Event, name: string, route: Route)
    requires s.watchers == []
    requires var a := Fold(s, es + [e]); name in a.managed && a.managed[name] == route
    ensures WatchersCalled(s, es + [e], name, route) <==>
            var b := Fold(s, es);
            name in b.managed && b.managed[name] == route
            && (WatchersCalled(s, es, name, route)
                || (e.Receive? && b.queue != [] && b.queue[0] == Update(true, route)))
  {
    var more, n, b := es + [e], |es|, Fold(s, es);
    CalledLast(s, es, e, name, route);
    if k :| 0 <= k < |more| && CalledAt(s, more, k, name, route) {
      if k < n { CalledBefore(s, es, e, k, name, route); }
    }
    if k :| 0 <= k < n && CalledAt(s, es, k, name, route) && name in b.managed && b.managed[name] == route {
      CalledBefore(s, es, e, k, name, route);
    }
  }

  lemma SinceNow(s: State, es: seq<Event>, name: string, route: Route)
    ensures ManagedSince(s, es, |es|, name, route) <==>
            name in Fold(s, es).managed && Fold(s, es).managed[name] == route
  {
    assert es[..|es|] == es;
  }

  lemma LossReceivedLast(s: State, es: seq<Event>, e: Event, route: Route)
    ensures ReceivesLoss(s, es + [e], |es|, route) <==>
            e.Receive? && Fold(s, es).queue != [] && Fold(s, es).queue[0] == Update(true, route)
  {
    assert (es + [e])[..|es|] == es;
  }

  lemma CalledLast(s: State, es: seq<Event>, e: Event, name: string, route: Route)
    requires s.watchers == []
    requires var a := Fold(s, es + [e]); name in a.managed && a.managed[name] == route
    ensures CalledAt(s, es + [e], |es|, name, route) <==>
            var b := Fold(s, es);
            name in b.managed && b.managed[name] == route
            && e.Receive? && b.queue != [] && b.queue[0] == Update(true, route)
  {
    SinceNow(s, es, name, route);
    SinceOneMore(s, es, e, |es|, name, route);
    LossReceivedLast(s, es, e, route);
    if ReceivesLoss(s, es + [e], |es|, route) && ManagedSince(s, es + [e], |es|, name, route) {
      LossCalls(s, es + [e], |es|, name, route);
    }
  }

  lemma CalledBefore(s: State, es: seq<Event>, e: Event, k: nat, name: string, route: Route)
    requires s.watchers == [] && k < |es|
    requires var a := Fold(s, es + [e]); name in a.managed && a.managed[name] == route
    ensures CalledAt(s, es + [e], k, name, route) <==>
            CalledAt(s, es, k, name, route) && name in Fold(s, es).managed && Fold(s, es).managed[name] == route
  {
    var more := es + [e];
    assert more[..k] == es[..k] && es[..|es|] == es;
    SinceOneMore(s, es, e, k, name, route);
    if ReceivesLoss(s, es, k, route) && ManagedSince(s, es, k, name, route) {
      LossCalls(s, es, k, name, route);
    }
    if ReceivesLoss(s, more, k, route) && ManagedSince(s, more, k, name, route) {
      LossCalls(s, more, k, name, route);
    }
  }

  /** What the history variable stands for: a managed name has been told iff since its registration
      its loss was received and every watcher registered then was called. */
  lemma {:induction false} ToldExactly(s: State, es: seq<Event>, name: string)
    requires Fresh(s) && s.watchers == [] && name in Fold(s, es).managed
    ensures name in Fold(s, es).told <==> WatchersCalled(s, es, name, Fold(s, es).managed[name])
  {
    if es != [] {
      var init, e := es[..|es| - 1], es[|es| - 1];
      var b, a := Fold(s, init), Fold(s, es);
      assert es == init + [e];
      if name in b.managed {
        ToldExactly(s, init, name);
      }
      CalledStep(s, init, e, name, a.managed[name]);
    }
  }

  // ------------------------------------------------------------ no missed loss

  /** The route is in the kernel, or its DELROUTE is queued, or the watchers have been called. */
  ghost predicate Known(s: State, es: seq<Event>, name: string)
    requires name in Fold(s, es).managed
  {
    var b := Fold(s, es);
    b.managed[name] in b.table || Update(true, b.managed[name]) in b.queue
    || WatchersCalled(s, es, name, b.managed[name])
  }

  ghost predicate AllKnown(s: State, es: seq<Event>) {
    forall name :: name in Fold(s, es).managed ==> Known(s, es, name)
  }

  /** The event does not take a shared route out of the kernel, unreported, under a name whose loss
      nobody knows of. */
  ghost predicate SafeAfter(s: State, es: seq<Event>, e: Event) {
    var b := Fold(s, es);
    Removes(b, e) && !e.echo ==>
      forall n :: n in Sharers(b, e.request.name) ==>
        Update(true, b.managed[n]) in b.queue || WatchersCalled(s, es, n, b.managed[n])
  }

  lemma KnownIsAccounted(s: State, es: seq<Event>)
    requires Fresh(s) && s.watchers == []
    ensures AllKnown(s, es) <==> NoMissedLoss(Fold(s, es))
  {
    forall name | name in Fold(s, es).managed ensures Known(s, es, name) <==> Accounted(Fold(s, es), name) {
      ToldExactly(s, es, name);
    }
  }

  lemma SafeIsLossSafe(s: State, es: seq<Event>, e: Event)
    requires Fresh(s) && s.watchers == []
    ensures SafeAfter(s, es, e) <==> LossSafe(Fold(s, es), e)
  {
    forall name | name in Fold(s, es).managed
      ensures name in Fold(s, es).told <==> WatchersCalled(s, es, name, Fold(s, es).managed[name])
    {
      ToldExactly(s, es, name);
    }
  }

  ghost predicate KnownUpTo(s: State, es: seq<Event>, n: nat)
    requires n <= |es|
  {
    forall k :: 0 <= k <= n ==> AllKnown(s, es[..k])
  }

  ghost predicate SafeUpTo(s: State, es: seq<Event>, n: nat)
    requires n <= |es|
  {
    forall k :: 0 <= k < n ==> SafeAfter(s, es[..k], es[k])
  }

  /** No missed loss: over every run of a fresh manager, with any outside changes and kernel errors,
      each managed route is at all times in the kernel, or its DELROUTE is queued, or since its
      registration every watcher registered at the receipt of its loss has been called, iff no
      event takes a shared route out unreported under a name whose loss is not known. */
  lemma LossesReachWatchers(s: State, es: seq<Event>, n: nat)
    requires Fresh(s) && s.watchers == [] && n <= |es|
    ensures KnownUpTo(s, es, n) <==> SafeUpTo(s, es, n)
  {
    LossesAccounted(s, es, n);
    forall k | 0 <= k <= n ensures AllKnown(s, es[..k]) <==> NoMissedLoss(Fold(s, es[..k])) {
      KnownIsAccounted(s, es[..k]);
    }
    forall k | 0 <= k < n ensures SafeAfter(s, es[..k], es[k]) <==> LossSafe(Fold(s, es[..k]), es[k]) {
      SafeIsLossSafe(s, es[..k], es[k]);
    }
  }
}
