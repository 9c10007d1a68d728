/** The route manager: one event loop that owns the managed routes and the watchers, beside a
    kernel table it does not own. */
module RouteManager {
  import opened Ipv4
  import opened Optional

  datatype Route = Route(dst: IPNet, gw: Ip, table: int)

  // Watchers are compared by value.
  type Watcher = nat

  // Kernel errors are told apart by their text.
  const EEXIST := "file exists"
  const ESRCH := "no such process"
  const DUPLICATE := "Route with the same Name already registered"

  /** An error the kernel gives for any other reason; the table is then unchanged. */
  type Fault = t: string | t != EEXIST && t != ESRCH witness "permission denied"

  /** What a requester is told. */
  datatype Reply = Ok | NotFound | Failed(text: string)

  type Managed = map<string, Route>

  // ------------------------------------------------------------ the two commands

  /** registerRoute, given the kernel's answer to the add: EEXIST counts as success. */
  function AfterRegister(m: Managed, name: string, route: Route, kernel: Option<string>): (Managed, Reply) {
    if name in m then (m, Failed(DUPLICATE))
    else if kernel.Some? && kernel.value != EEXIST then (m, Failed(kernel.value))
    else (m[name := route], Ok)
  }

  /** deRegisterRoute, given the kernel's answer to the delete: ESRCH counts as success. */
  function AfterDeregister(m: Managed, name: string, kernel: Option<string>): (Managed, Reply) {
    if name !in m then (m, NotFound)
    else if kernel.Some? && kernel.value != ESRCH then (m, Failed(kernel.value))
    else (m - {name}, Ok)
  }

  // ------------------------------------------------------------ the loop as a state machine

  datatype Update = Update(deleted: bool, route: Route)

  datatype Request = Register(name: string, route: Route) | Deregister(name: string)

  /** Manager and kernel together. `told` is a history variable: the managed names whose loss
      has been passed to the watchers since they were registered. */
  datatype State = State(
    managed: Managed,
    watchers: seq<Watcher>,
    table: set<Route>,
    queue: seq<Update>,
    callbacks: seq<(Watcher, Route)>,
    replies: seq<(Request, Reply)>,
    told: set<string>)

  /** One turn of the select, with the kernel's disposition, or something outside the manager.
      The kernel may or may not report the manager's own deletes back to it (`echo`). */
  datatype Event =
    | Command(request: Request, fault: Option<Fault>, echo: bool)
    | AddWatcher(watcher: Watcher)
    | DropWatcher(watcher: Watcher)
    | Receive
    | Outside(update: Update)
    | Stop

  function KernelAdd(table: set<Route>, route: Route, fault: Option<Fault>): (set<Route>, Option<string>) {
    if fault.Some? then (table, fault)
    else if route in table then (table, Some(EEXIST))
    else (table + {route}, None)
  }

  function KernelDel(table: set<Route>, route: Route, fault: Option<Fault>): (set<Route>, Option<string>) {
    if fault.Some? then (table, fault)
    else if route !in table then (table, Some(ESRCH))
    else (table - {route}, None)
  }

  /** The watcher list with the first equal watcher dropped. */
  function DropFirst(ws: seq<Watcher>, w: Watcher): seq<Watcher> {
    if ws == [] then []
    else if ws[0] == w then ws[1..]
    else [ws[0]] + DropFirst(ws[1..], w)
  }

  /** One callback per watcher, in list order. */
  function CallAll(ws: seq<Watcher>, route: Route): (r: seq<(Watcher, Route)>)
    ensures |r| == |ws|
    ensures forall i :: 0 <= i < |ws| ==> r[i] == (ws[i], route)
  {
    seq(|ws|, i requires 0 <= i < |ws| => (ws[i], route))
  }

  /** The names that manage a route. */
  ghost function Holders(m: Managed, route: Route): set<string> {
    set n | n in m && m[n] == route
  }

  ghost predicate IsManaged(m: Managed, route: Route) {
    exists n :: n in m && m[n] == route
  }

  ghost function AfterUpdate(s: State, u: Update): State {
    if u.deleted && IsManaged(s.managed, u.route)
    then s.(callbacks := s.callbacks + CallAll(s.watchers, u.route), told := s.told + Holders(s.managed, u.route))
    else s
  }

  ghost function AfterCommand(s: State, r: Request, fault: Option<Fault>, echo: bool): State {
    match r
    case Register(name, route) =>
      var (table, err) := if name in s.managed then (s.table, None) else KernelAdd(s.table, route, fault);
      var (managed, reply) := AfterRegister(s.managed, name, route, err);
      s.(managed := managed, table := table, replies := s.replies + [(r, reply)],
         told := if reply.Ok? then s.told - {name} else s.told)
    case Deregister(name) =>
      var (table, err) := if name !in s.managed then (s.table, None) else KernelDel(s.table, s.managed[name], fault);
      var (managed, reply) := AfterDeregister(s.managed, name, err);
      s.(managed := managed, table := table, replies := s.replies + [(r, reply)],
         queue := if echo && table != s.table then s.queue + [Update(true, s.managed[name])] else s.queue)
  }

  ghost function Next(s: State, e: Event): State {
    match e
    case Command(r, fault, echo) => AfterCommand(s, r, fault, echo)
    case AddWatcher(w) => s.(watchers := s.watchers + [w])
    case DropWatcher(w) => s.(watchers := DropFirst(s.watchers, w))
    case Receive => if s.queue == [] then s else AfterUpdate(s.(queue := s.queue[1..]), s.queue[0])
    case Outside(u) =>
      s.(table := if u.deleted then s.table - {u.route} else s.table + {u.route}, queue := s.queue + [u])
    case Stop => s
  }

  ghost function Fold(s: State, es: seq<Event>): State {
    if es == [] then s else Next(Fold(s, es[..|es| - 1]), es[|es| - 1])
  }

  /** A fresh manager beside a kernel in any condition. */
  ghost predicate Fresh(s: State) {
    s.managed == map[] && s.replies == [] && s.callbacks == [] && s.told == {}
  }

  // ------------------------------------------------------------ the implementation

  class Kernel {
    var table: set<Route>
    var queue: seq<Update>
    // The disposition of the environment towards the next call.
    var fault: Option<Fault>
    var echo: bool

    constructor ()
      ensures table == {} && queue == []
    {
      table, queue, fault, echo := {}, [], None, false;
    }

    method RouteAdd(route: Route) returns (err: Option<string>)
      modifies this`table
      ensures (table, err) == KernelAdd(old(table), route, fault)
    {
      if fault.Some? {
        return fault;
      }
      if route in table {
        return Some(EEXIST);
      }
      table := table + {route};
      return None;
    }

    method RouteDel(route: Route) returns (err: Option<string>)
      modifies this`table, this`queue
      ensures (table, err) == KernelDel(old(table), route, fault)
      ensures queue == if echo && table != old(table) then old(queue) + [Update(true, route)] else old(queue)
    {
      if fault.Some? {
        return fault;
      }
      if route !in table {
        return Some(ESRCH);
      }
      table := table - {route};
      if echo {
        queue := queue + [Update(true, route)];
      }
      return None;
    }
  }

  class RouteManagerImpl {
    var managedRoutes: Managed
    var watchers: seq<Watcher>
    const kernel: Kernel
    // What was sent on the reply channels and to the watchers.
    var replies: seq<(Request, Reply)>
    var callbacks: seq<(Watcher, Route)>
    ghost var told: set<string>

    constructor (kernel: Kernel)
      ensures this.kernel == kernel && Fresh(View()) && watchers == []
    {
      managedRoutes, watchers, replies, callbacks, told := map[], [], [], [], {};
      this.kernel := kernel;
    }

    ghost function View(): State
      reads this, kernel
    {
      State(managedRoutes, watchers, kernel.table, kernel.queue, callbacks, replies, told)
    }

    predicate IsRegistered(name: string)
      reads this
    {
      name in managedRoutes
    }

    method RegisterRoute(name: string, route: Route)
      modifies this, kernel`table
      ensures View() == AfterCommand(old(View()), Register(name, route), kernel.fault, kernel.echo)
    {
      if IsRegistered(name) {
        replies := replies + [(Register(name, route), Failed(DUPLICATE))];
        return;
      }
      var err := kernel.RouteAdd(route);
      if err.Some? && EEXIST != err.value {
        replies := replies + [(Register(name, route), Failed(err.value))];
        return;
      }
      managedRoutes := managedRoutes[name := route];
      told := told - {name};
      replies := replies + [(Register(name, route), Ok)];
    }

    method DeRegisterRoute(name: string)
      modifies this, kernel`table, kernel`queue
      ensures View() == AfterCommand(old(View()), Deregister(name), kernel.fault, kernel.echo)
    {
      if name !in managedRoutes {
        replies := replies + [(Deregister(name), NotFound)];
        return;
      }
      var item := managedRoutes[name];
      var err := kernel.RouteDel(item);
      if err.Some? && ESRCH != err.value {
        replies := replies + [(Deregister(name), Failed(err.value))];
        return;
      }
      managedRoutes := managedRoutes - {name};
      replies := replies + [(Deregister(name), Ok)];
    }

    method RegisterWatcher(w: Watcher)
      modifies this`watchers
      ensures watchers == old(watchers) + [w]
    {
      watchers := watchers + [w];
    }

    method DeRegisterWatcher(w: Watcher)
      modifies this`watchers
      ensures watchers == DropFirst(old(watchers), w)
    {
      for index := 0 to |watchers|
        invariant watchers == old(watchers)
        invariant DropFirst(watchers, w) == watchers[..index] + DropFirst(watchers[index..], w)
      {
        if watchers[index] == w {
          watchers := watchers[..index] + watchers[index + 1..];
          break;
        }
      }
    }

    /** The managed routes are visited in no particular order. */
    method NotifyWatchers(update: Update)
      modifies this`callbacks, this`told
      ensures View() == AfterUpdate(old(View()), update)
    {
      if !update.deleted {
        return;
      }
      var names := managedRoutes.Keys;
      while names != {}
        invariant names <= managedRoutes.Keys
        invariant forall n :: n in managedRoutes && n !in names ==> managedRoutes[n] != update.route
        invariant callbacks == old(callbacks) && told == old(told)
        decreases names
      {
        var name :| name in names;
        var route := managedRoutes[name];
        if route == update.route {
          for i := 0 to |watchers|
            invariant callbacks == old(callbacks) + CallAll(watchers, update.route)[..i]
            invariant told == old(told)
          {
            callbacks := callbacks + [(watchers[i], update.route)];
          }
          assert CallAll(watchers, update.route)[..|watchers|] == CallAll(watchers, update.route);
          told := told + Holders(managedRoutes, update.route);
          assert IsManaged(managedRoutes, update.route);
          return;
        }
        names := names - {name};
      }
      assert !IsManaged(managedRoutes, update.route);
    }

    /** One turn of the select. */
    method Handle(e: Event)
      modifies this, kernel
      ensures View() == Next(old(View()), e)
    {
      match e {
        case Stop =>
        case Receive =>
          if kernel.queue != [] {
            var update := kernel.queue[0];
            kernel.queue := kernel.queue[1..];
            NotifyWatchers(update);
          }
        case AddWatcher(w) => RegisterWatcher(w);
        case DropWatcher(w) => DeRegisterWatcher(w);
        case Outside(u) =>
          kernel.table := if u.deleted then kernel.table - {u.route} else kernel.table + {u.route};
          kernel.queue := kernel.queue + [u];
        case Command(request, fault, echo) =>
          kernel.fault, kernel.echo := fault, echo;
          match request {
            case Register(name, route) => RegisterRoute(name, route);
            case Deregister(name) => DeRegisterRoute(name);
          }
      }
    }

    /** The event loop; `script` is the order in which the select fires and the environment acts. */
    method Run(script: seq<Event>, subscribeError: Option<string>) returns (handled: nat, err: Option<string>)
      modifies this, kernel
      ensures err == subscribeError
      ensures subscribeError.Some? ==> handled == 0
      ensures handled <= |script| && Stop !in script[..handled]
      ensures subscribeError.None? && handled < |script| ==> script[handled] == Stop
      ensures View() == Fold(old(View()), script[..handled])
    {
      handled, err := 0, subscribeError;
      if subscribeError.Some? {
        return;
      }
      while handled < |script|
        invariant handled <= |script| && Stop !in script[..handled]
        invariant View() == Fold(old(View()), script[..handled])
      {
        if script[handled] == Stop {
          return;
        }
        FoldAppend(old(View()), script[..handled], script[handled]);
        assert script[..handled + 1] == script[..handled] + [script[handled]];
        Handle(script[handled]);
        handled := handled + 1;
      }
    }
  }

  lemma FoldAppend(s: State, es: seq<Event>, e: Event)
    ensures Fold(s, es + [e]) == Next(Fold(s, es), e)
  {
    assert (es + [e])[..|es|] == es;
  }
}
