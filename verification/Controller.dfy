/** The static route controller's round in its own form: an instance changed in place, early
    returns, and a deferred status report. Proved to make exactly the calls of the process in
    `Reconcile`, whatever the API server, the kernel and the manager answer. */
module Controller {
  import opened Ipv4
  import opened Optional
  import opened StaticRoutes
  import opened Wrapper
  import opened RouteManager
  import opened Protection
  import opened Reconcile

  /** Every call gets an answer of its own kind. */
  ghost predicate Typed(oracle: (seq<Exchange>, Call) -> Answer) {
    forall es, c :: Fits(c, oracle(es, c))
  }

  /** Everything a round calls out to. Its answers may depend on all that happened before. */
  class Environment {
    const oracle: (seq<Exchange>, Call) -> Answer
    var trace: seq<Exchange>

    ghost predicate Valid() {
      Typed(oracle)
    }

    constructor (oracle: (seq<Exchange>, Call) -> Answer)
      requires Typed(oracle)
      ensures Valid() && trace == [] && this.oracle == oracle
    {
      this.oracle, trace := oracle, [];
    }

    method Ask(c: Call) returns (a: Answer)
      requires Valid()
      modifies this
      ensures Fits(c, a) && a == oracle(old(trace), c)
      ensures trace == old(trace) + [Exchange(c, a)]
    {
      a := oracle(trace, c);
      trace := trace + [Exchange(c, a)];
    }
  }

  /** params of reconcileImpl: the configuration, the environment, and where the round began. */
  class Reconciler {
    const o: Options
    const blocks: seq<Block>
    const env: Environment

    constructor (o: Options, blocks: seq<Block>, env: Environment)
      ensures this.o == o && this.blocks == blocks && this.env == env
    {
      this.o, this.blocks, this.env := o, blocks, env;
    }

    ghost predicate BlocksValid()
      reads set b: Block | b in blocks :: b.ip
      reads set b: Block | b in blocks :: b.mask
    {
      (forall b :: b in blocks ==> b.Valid() && Contiguous(b.Net()))
      && o.protecteds == Nets(blocks)
    }

    /** The calls made since position `n0` are those of the process, now at `p`. */
    ghost predicate At(n0: nat, p: Proc)
      reads env
    {
      n0 <= |env.trace| && Follow(o, env.trace[n0..]) == Some(p)
    }

    /** One call, with the process kept in step. */
    method Exchanged(ghost n0: nat, ghost p: Proc, c: Call) returns (a: Answer)
      requires env.Valid() && At(n0, p) && !p.Done? && c == Pending(o, p)
      modifies env
      ensures Fits(c, a) && At(n0, Advance(o, p, a))
      ensures env.trace == old(env.trace) + [Exchange(c, a)]
    {
      ghost var es := env.trace[n0..];
      a := env.Ask(c);
      assert env.trace[n0..] == es + [Exchange(c, a)];
      FollowStep(o, AwaitGet, es, p, Exchange(c, a));
    }

    /** An API write of the instance; a successful one decodes the stored object into it. */
    method Write(ghost n0: nat, ghost p: Proc, instance: StaticRoute, status: bool) returns (err: Option<string>,
                 ghost a: Answer)
      requires env.Valid() && At(n0, p) && !p.Done?
      requires Pending(o, p) == if status then CStatusUpdate(instance.View()) else CUpdate(instance.View())
      modifies env, instance
      ensures Fits(Pending(o, p), a) && At(n0, Advance(o, p, a))
      ensures old(env.trace) <= env.trace
      ensures err.None? ==> a.AObject? && instance.View() == a.resource
      ensures err.Some? ==> a == AError(err.value) && instance.View() == old(instance.View())
    {
      var answer := Exchanged(n0, p, if status then CStatusUpdate(instance.View()) else CUpdate(instance.View()));
      a := answer;
      if answer.AError? {
        return Some(answer.text), a;
      }
      instance.Refresh(answer.resource);
      return None, a;
    }

    /** The selector-building loop: it fails on the first requirement the library refuses. */
    method BuildSelector(allSelector: seq<Requirement>) returns (ok: bool, selector: seq<Requirement>)
      ensures ok <==> forall r :: r in allSelector ==> Usable(o, r)
      ensures ok ==> selector == allSelector
    {
      selector := [];
      for i := 0 to |allSelector|
        invariant selector == allSelector[..i]
        invariant forall j :: 0 <= j < i ==> Usable(o, allSelector[j])
      {
        var s := allSelector[i];
        if s.operator.OpOther? || !o.requirementOk(s) {
          assert s in allSelector && !Usable(o, s);
          return false, selector;
        }
        selector := selector + [s];
      }
      return true, selector;
    }

    method ValidateNodeBySelector(ghost n0: nat, rw: RouteWrapper) returns (res: Result, err: Option<string>)
      requires env.Valid() && rw.instance.spec.selectors != [] && At(n0, Fetched(o, rw.instance.View()))
      modifies env
      ensures old(env.trace) <= env.trace
      ensures res == NoResult ==> err.None? && At(n0, AfterSelect(o, rw.instance.View(), false))
      ensures res == NodeNotFound ==> err.None? && At(n0, NoneSelected(o, rw.instance.View()))
      ensures res != NoResult && res != NodeNotFound ==>
                At(n0, Finish(o, true, rw.instance.View(), Some(ZERO_IP), res, err))
    {
      var allSelector := rw.instance.spec.selectors;
      allSelector := allSelector + [Requirement(HOSTNAME_LABEL, OpIn, [o.host])];
      var ok, selector := BuildSelector(allSelector);
      if !ok {
        return WrongSelectorErr, None;
      }
      var nodes := Exchanged(n0, AwaitList(rw.instance.View()), CList(selector));
      if nodes.AError? {
        return NodeGetError, Some(nodes.text);
      } else if nodes.count == 0 {
        return NodeNotFound, None;
      }
      return NoResult, None;
    }

    /** A nil gateway, or one that is not directly routable, ends the round. */
    method SelectGateway(ghost n0: nat, rw: RouteWrapper, ghost noLonger: bool)
      returns (res: Result, gateway: Option<Ip>, err: Option<string>)
      requires env.Valid() && At(n0, AfterSelect(o, rw.instance.View(), noLonger))
      requires !Protected(ParseCIDR(rw.instance.spec.subnet), o.protecteds)
      modifies env
      ensures old(env.trace) <= env.trace
      ensures gateway.None? || res == GatewayNotDirectlyRoutableError ==>
                At(n0, Finish(o, !noLonger, rw.instance.View(), gateway, res, err))
      ensures gateway.Some? && res != GatewayNotDirectlyRoutableError ==>
                res == NoResult && err.None? && At(n0, Resolved(o, rw.instance.View(), gateway.value, noLonger))
    {
      gateway := rw.GetGateway();
      if gateway.None? && !rw.instance.spec.gateway.EmptyText? {
        return InvalidGatewayError, None, None;
      }
      ghost var p := AwaitGw(rw.instance.View(), noLonger);
      if gateway.Some? {
        var extraGw := Exchanged(n0, p, CGetGw(gateway.value));
        if extraGw.AError? {
          return RouteGetError, None, Some(extraGw.text);
        }
        if extraGw.hop.Some? {
          return GatewayNotDirectlyRoutableError, gateway, None;
        }
      } else {
        var defaultGateway := Exchanged(n0, p, CGetGw(o.fallback));
        if defaultGateway.AError? {
          return RouteGetError, None, Some(defaultGateway.text);
        }
        gateway := defaultGateway.hop;
      }
      return NoResult, gateway, None;
    }

    method DeleteOperation(ghost n0: nat, rw: RouteWrapper, ghost changed: bool)
      returns (res: Result, err: Option<string>)
      requires env.Valid() && At(n0, AwaitDeregister(rw.instance.View(), changed))
      modifies env, rw.instance
      ensures old(env.trace) <= env.trace && At(n0, DelDone(changed, res, err))
    {
      var answer := Exchanged(n0, AwaitDeregister(rw.instance.View(), changed), CDeregister(o.name));
      if answer.reply.Failed? {
        return DeRegisterError, Some(answer.reply.text);
      }
      ghost var a;
      err, a := Write(n0, AwaitDelStatus(rw.instance.View(), changed), rw.instance, true);
      if err.Some? {
        return DelStatusUpdateError, err;
      }
      if |rw.instance.status| == 0 {
        rw.instance.finalizers := [];
        err, a := Write(n0, AwaitClear(rw.instance.View(), changed), rw.instance, false);
        if err.Some? {
          return EmptyFinalizerError, err;
        }
      }
      return DeletionFinished, None;
    }

    /** The registration half of addOperation. */
    method EnsureRegistered(ghost n0: nat, rw: RouteWrapper, gateway: Ip, table: int)
      returns (res: Result, err: Option<string>)
      requires env.Valid() && At(n0, AwaitIsRegistered(rw.instance.View(), gateway, table))
      modifies env
      ensures old(env.trace) <= env.trace
      ensures At(n0, Finish(o, true, rw.instance.View(), Some(gateway), res, err))
    {
      var registered := Exchanged(n0, AwaitIsRegistered(rw.instance.View(), gateway, table), CIsRegistered(o.name));
      if registered.yes {
        return Finished, None;
      }
      assert At(n0, NotRegistered(o, rw.instance.View(), gateway, table));
      var ipnet := ParseCIDR(rw.instance.spec.subnet);
      if ipnet.None? {
        return ParseSubnetError, None;
      }
      var route := Route(ipnet.value, gateway, table);
      var answer := Exchanged(n0, AwaitRegister(rw.instance.View(), gateway, route), CRegister(o.name, route));
      if answer.reply.Failed? {
        return RegisterRouteError, Some(answer.reply.text);
      }
      return Finished, None;
    }

    method AddOperation(ghost n0: nat, rw: RouteWrapper, gateway: Ip, table: int)
      returns (res: Result, err: Option<string>)
      requires env.Valid() && At(n0, Adding(rw.instance.View(), gateway, table))
      modifies env, rw.instance
      ensures old(env.trace) <= env.trace
      ensures At(n0, Finish(o, true, rw.instance.View(), Some(gateway), res, err))
    {
      ghost var w := rw.instance.View();
      var added := rw.SetFinalizer();
      if added {
        ghost var a;
        ghost var p := AwaitFinalizer(rw.instance.View(), gateway, table);
        assert p == Adding(w, gateway, table);
        err, a := Write(n0, p, rw.instance, false);
        if err.Some? {
          assert Advance(o, p, a) == Finish(o, true, rw.instance.View(), Some(gateway), SetFinalizerError, err);
          return SetFinalizerError, err;
        }
        assert Advance(o, p, a) == AwaitIsRegistered(rw.instance.View(), gateway, table);
      } else {
        assert rw.instance.View() == w && Adding(w, gateway, table) == AwaitIsRegistered(w, gateway, table);
      }
      res, err := EnsureRegistered(n0, rw, gateway, table);
    }

    /** With the gateway resolved: withdraw, or add. */
    method Decide(ghost n0: nat, rw: RouteWrapper, gateway: Ip, selectorNoLongerMatches: bool)
      returns (res: Result, err: Option<string>, reportStatus: bool)
      requires env.Valid() && At(n0, Resolved(o, rw.instance.View(), gateway, selectorNoLongerMatches))
      modifies env, rw.instance
      ensures old(env.trace) <= env.trace
      ensures At(n0, Finish(o, reportStatus, rw.instance.View(), Some(gateway), res, err))
    {
      ghost var w := rw.instance.View();
      reportStatus := true;
      var isChanged := rw.IsChanged(o.host, IpString(Some(gateway)), rw.instance.spec.selectors);
      assert w.spec.(selectors := w.spec.selectors) == w.spec;
      assert isChanged <==> Changed(w.status, o.host, w.spec, Dotted(gateway));
      if rw.instance.deleting || isChanged || selectorNoLongerMatches {
        reportStatus := false;
        var existed := rw.RemoveFromStatus(o.host);
        if !existed {
          return AlreadyDeleted, None, false;
        }
        assert rw.instance.View() == w.(status := Without(w.status, o.host));
        assert At(n0, AwaitDeregister(rw.instance.View(), isChanged));
        res, err := DeleteOperation(n0, rw, isChanged);
        if isChanged {
          res := UpdateFinished;
        }
        return;
      }
      var table := o.table;
      if rw.instance.spec.table.Some? {
        table := rw.instance.spec.table.value;
      }
      assert At(n0, Adding(rw.instance.View(), gateway, table));
      res, err := AddOperation(n0, rw, gateway, table);
    }

    /** The main body once the selectors are settled. */
    method RouteSelected(ghost n0: nat, rw: RouteWrapper, selectorNoLongerMatches: bool)
      returns (res: Result, err: Option<string>, gateway: Option<Ip>, reportStatus: bool)
      requires env.Valid() && BlocksValid() && At(n0, AfterSelect(o, rw.instance.View(), selectorNoLongerMatches))
      modifies env, rw.instance
      ensures old(env.trace) <= env.trace
      ensures At(n0, Finish(o, reportStatus, rw.instance.View(), gateway, res, err))
    {
      reportStatus := !selectorNoLongerMatches;
      var subnet := ParseCIDR(rw.instance.spec.subnet);
      var isProtected := IsProtected(subnet, blocks);
      assert isProtected <==> Protected(subnet, o.protecteds);
      if isProtected {
        return OverlapsProtected, None, Some(ZERO_IP), reportStatus;
      }
      res, gateway, err := SelectGateway(n0, rw, selectorNoLongerMatches);
      if gateway.None? || res == GatewayNotDirectlyRoutableError {
        return;
      }
      res, err, reportStatus := Decide(n0, rw, gateway.value, selectorNoLongerMatches);
    }

    /** The main body up to its return, with the values the deferred block will see. */
    method Body(ghost n0: nat, rw: RouteWrapper)
      returns (res: Result, err: Option<string>, gateway: Option<Ip>, reportStatus: bool)
      requires env.Valid() && BlocksValid() && At(n0, Fetched(o, rw.instance.View()))
      modifies env, rw.instance
      ensures old(env.trace) <= env.trace
      ensures At(n0, Finish(o, reportStatus, rw.instance.View(), gateway, res, err))
    {
      ghost var w := rw.instance.View();
      res, err, gateway, reportStatus := NoResult, None, Some(ZERO_IP), true;
      var selectorNoLongerMatches := false;
      if |rw.instance.spec.selectors| > 0 {
        res, err := ValidateNodeBySelector(n0, rw);
        assert rw.instance.View() == w;
        if res != NoResult {
          if res == NodeNotFound {
            reportStatus := false;
          }
          var already := rw.AlreadyInStatus(o.host);
          if res != NodeNotFound || !already {
            return;
          }
          selectorNoLongerMatches := true;
        }
      }
      res, err, gateway, reportStatus := RouteSelected(n0, rw, selectorNoLongerMatches);
    }

    /** The status write of a report; a refusal becomes the result of the round. */
    method WriteReport(ghost n0: nat, rw: RouteWrapper, res0: Result, err0: Option<string>)
      returns (res: Result, err: Option<string>)
      requires env.Valid() && At(n0, AwaitReport(rw.instance.View(), res0, err0))
      modifies env, rw.instance
      ensures old(env.trace) <= env.trace && At(n0, AfterReport(rw.instance.View(), res, err))
    {
      ghost var p := AwaitReport(rw.instance.View(), res0, err0);
      res, err := res0, err0;
      var cerr;
      ghost var a;
      cerr, a := Write(n0, p, rw.instance, true);
      if cerr.Some? {
        res, err := AddStatusUpdateError, cerr;
      }
      assert Advance(o, p, a) == AfterReport(rw.instance.View(), res, err);
    }

    /** The report half of the deferred block. */
    method Report(ghost n0: nat, rw: RouteWrapper, gateway: Option<Ip>, res0: Result, err0: Option<string>)
      returns (res: Result, err: Option<string>)
      requires env.Valid() && At(n0, Finish(o, true, rw.instance.View(), gateway, res0, err0))
      modifies env, rw.instance
      ensures old(env.trace) <= env.trace && At(n0, AfterReport(rw.instance.View(), res, err))
    {
      ghost var w := rw.instance.View();
      res, err := res0, err0;
      var serr := err;
      if res == OverlapsProtected {
        serr := Some(OVERLAP_TEXT);
      } else if res == GatewayNotDirectlyRoutableError {
        serr := Some(NOT_ROUTABLE_TEXT);
      }
      assert serr == StatusError(res0, err0);
      var matches := rw.MatchesStatus(o.host, gateway, serr);
      if !matches {
        var added := rw.Rewrite(o.host, gateway, serr);
        if added {
          assert AwaitReport(rw.instance.View(), res, err) == Finish(o, true, w, gateway, res0, err0);
          res, err := WriteReport(n0, rw, res, err);
        }
      }
    }

    /** The deferred block: report, and clean up if deletion has started. */
    method Deferred(ghost n0: nat, rw: RouteWrapper, gateway: Option<Ip>, reportStatus: bool,
                    res0: Result, err0: Option<string>)
      returns (res: Result, err: Option<string>)
      requires env.Valid() && At(n0, Finish(o, reportStatus, rw.instance.View(), gateway, res0, err0))
      modifies env, rw.instance
      ensures old(env.trace) <= env.trace && At(n0, Done(res, err))
    {
      res, err := res0, err0;
      if !reportStatus {
        return;
      }
      res, err := Report(n0, rw, gateway, res0, err0);
      if rw.instance.deleting {
        res, err := DeleteOperation(n0, rw, false);
      }
    }

    /** reconcileImpl: from the first call on, the calls made and their answers are a complete
        run of the process, which ends with the result and error returned here. */
    method ReconcileImpl() returns (res: Result, err: Option<string>)
      requires env.Valid() && BlocksValid()
      modifies env
      ensures old(env.trace) <= env.trace
      ensures Follow(o, env.trace[|old(env.trace)|..]) == Some(Done(res, err))
    {
      ghost var n0 := |env.trace|;
      var answer := Exchanged(n0, AwaitGet, CGet);
      if answer.AMissing? {
        return CrNotFound, None;
      }
      if answer.AError? {
        return CrGetError, Some(answer.text);
      }
      var instance := new StaticRoute(answer.resource);
      var rw := new RouteWrapper(instance);
      var gateway, reportStatus;
      res, err, gateway, reportStatus := Body(n0, rw);
      res, err := Deferred(n0, rw, gateway, reportStatus, res, err);
    }
  }
}
