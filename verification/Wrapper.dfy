/** The wrapper around a fetched StaticRoute: everything here changes the instance in place. */
module Wrapper {
  import opened Ipv4
  import opened Optional
  import opened StaticRoutes

  /** The in-memory StaticRoute object. */
  class StaticRoute {
    var version: nat
    var spec: Spec
    var deleting: bool
    var finalizers: seq<string>
    var status: seq<Entry>

    constructor (r: Resource)
      ensures View() == r
    {
      version, spec, deleting, finalizers, status := r.version, r.spec, r.deleting, r.finalizers, r.status;
    }

    function View(): Resource
      reads this
    {
      Resource(version, spec, deleting, finalizers, status)
    }

    /** A successful API call decodes the stored object into the instance. */
    method Refresh(r: Resource)
      modifies this
      ensures View() == r
    {
      version, spec, deleting, finalizers, status := r.version, r.spec, r.deleting, r.finalizers, r.status;
    }
  }

  class RouteWrapper {
    const instance: StaticRoute

    constructor (instance: StaticRoute)
      ensures this.instance == instance
    {
      this.instance := instance;
    }

    method SetFinalizer() returns (added: bool)
      modifies instance`finalizers
      ensures added <==> old(instance.finalizers) == []
      ensures instance.finalizers == if added then [FINALIZER] else old(instance.finalizers)
    {
      if |instance.finalizers| != 0 {
        return false;
      }
      instance.finalizers := [FINALIZER];
      return true;
    }

    method IsChanged(host: Host, gateway: IpText, selectors: seq<Requirement>) returns (r: bool)
      ensures r <==> Changed(instance.status, host, instance.spec.(selectors := selectors), gateway)
    {
      for i := 0 to |instance.status|
        invariant forall j :: 0 <= j < i && instance.status[j].host == host ==>
                    SameRequest(instance.status[j].state, instance.spec.(selectors := selectors), gateway)
      {
        var s := instance.status[i];
        if s.host != host {
          continue;
        } else if s.state.subnet != instance.spec.subnet || s.state.gateway != gateway
                  || s.state.table != instance.spec.table || s.state.selectors != selectors {
          assert s in instance.status && !SameRequest(s.state, instance.spec.(selectors := selectors), gateway);
          return true;
        }
      }
      return false;
    }

    function GetGateway(): (r: Option<Ip>)
      reads instance
      ensures r.Some? ==> instance.spec.gateway == IpString(r)
      ensures r.None? <==> !instance.spec.gateway.Dotted?
    {
      if instance.spec.gateway.EmptyText? then None else ParseIP(instance.spec.gateway)
    }

    method MatchesStatus(host: Host, gateway: Option<Ip>, err: Option<string>) returns (r: bool)
      ensures r <==> StatusMatch(instance.status, host, instance.spec, gateway, err)
    {
      var errText := "";
      if err.Some? {
        errText := err.value;
      }
      for i := 0 to |instance.status|
        invariant forall j :: 0 <= j < i ==> !Reports(instance.status[j], host, instance.spec, gateway, err)
      {
        var val := instance.status[i];
        if val.host == host && val.state.subnet == instance.spec.subnet
           && val.state.gateway == IpString(gateway) && val.error == errText {
          assert val in instance.status && Reports(val, host, instance.spec, gateway, err);
          return true;
        }
      }
      return false;
    }

    method AlreadyInStatus(host: Host) returns (r: bool)
      ensures r <==> Listed(instance.status, host)
    {
      for i := 0 to |instance.status|
        invariant forall j :: 0 <= j < i ==> instance.status[j].host != host
      {
        if instance.status[i].host == host {
          assert instance.status[i] in instance.status;
          return true;
        }
      }
      return false;
    }

    method AddToStatus(host: Host, gateway: Option<Ip>, err: Option<string>) returns (added: bool)
      modifies instance`status
      ensures added <==> !Listed(old(instance.status), host)
      ensures instance.status ==
              old(instance.status) + if added then [NewEntry(host, instance.spec, gateway, err)] else []
    {
      for i := 0 to |instance.status|
        invariant forall j :: 0 <= j < i ==> instance.status[j].host != host
        invariant instance.status == old(instance.status)
      {
        if instance.status[i].host == host {
          assert instance.status[i] in instance.status;
          return false;
        }
      }
      var spec := instance.spec.(gateway := IpString(gateway));
      var errorString := "";
      if err.Some? {
        errorString := err.value;
      }
      instance.status := instance.status + [Entry(host, spec, errorString)];
      return true;
    }

    method RemoveFromStatus(host: Host) returns (existed: bool)
      modifies instance`status
      ensures existed <==> Listed(old(instance.status), host)
      ensures instance.status == Without(old(instance.status), host)
    {
      var statusArr := [];
      existed := false;
      ghost var all := instance.status;
      for i := 0 to |instance.status|
        invariant instance.status == all
        invariant statusArr == Without(all[..i], host)
        invariant existed <==> Listed(all[..i], host)
      {
        var val := instance.status[i];
        RemovalStep(all, i, host);
        if val.host == host {
          existed := true;
          continue;
        }
        statusArr := statusArr + [val];
      }
      assert all[..|all|] == all;
      instance.status := statusArr;
    }

    /** The rewrite the deferred report makes: the add always takes place. */
    method Rewrite(host: Host, gateway: Option<Ip>, err: Option<string>) returns (added: bool)
      modifies instance`status
      ensures added && instance.status == Rewritten(old(instance.status), host, instance.spec, gateway, err)
    {
      WithoutUnlists(instance.status, host);
      var _ := RemoveFromStatus(host);
      added := AddToStatus(host, gateway, err);
    }
  }
}
