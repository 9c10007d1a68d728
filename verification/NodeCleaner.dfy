/** The node cleaner: removes a vanished node from the status of every route. */
module NodeCleaner {
  import opened Optional
  import opened StaticRoutes

  /** The entry slots are reset to when a slice shrinks. */
  const ZERO_ENTRY := Entry("", Spec(Malformed(""), EmptyText, None, []), "")

  /** The first entry of a host is cut out; nothing happens to a host without one. */
  function Cut(s: seq<Entry>, host: Host): seq<Entry> {
    if s == [] then []
    else if s[0].host == host then s[1..]
    else [s[0]] + Cut(s[1..], host)
  }

  lemma {:induction false} CutAt(s: seq<Entry>, host: Host, k: nat)
    requires k < |s| && s[k].host == host
    requires forall j :: 0 <= j < k ==> s[j].host != host
    ensures Cut(s, host) == s[..k] + s[k + 1..]
  {
    if k > 0 {
      CutAt(s[1..], host, k - 1);
      assert [s[0]] + s[1..][..k - 1] == s[..k];
      assert s[1..][k..] == s[k + 1..];
    }
  }

  lemma {:induction false} CutUnlisted(s: seq<Entry>, host: Host)
    requires !Listed(s, host)
    ensures Cut(s, host) == s
  {
    if s != [] {
      assert s[0] in s;
      CutUnlisted(s[1..], host);
    }
  }

  lemma {:induction false} WithoutFront(e: Entry, s: seq<Entry>, host: Host)
    ensures Without([e] + s, host) == if e.host == host then Without(s, host) else [e] + Without(s, host)
  {
    if s == [] {
      assert [e] + s == [] + [e];
      WithoutAppend([], e, host);
    } else {
      var init, last := s[..|s| - 1], s[|s| - 1];
      WithoutFront(e, init, host);
      assert [e] + s == ([e] + init) + [last];
      WithoutAppend([e] + init, last, host);
      assert ([e] + Without(init, host)) + [last] == [e] + (Without(init, host) + [last]);
    }
  }

  lemma DistinctTail(s: seq<Entry>)
    requires s != [] && Distinct(s)
    ensures Distinct(s[1..]) && !Listed(s[1..], s[0].host)
  {
    forall e | e in s[1..] ensures e.host != s[0].host {
      var j :| 0 <= j < |s[1..]| && s[1..][j] == e;
      assert s[0].host != s[j + 1].host;
    }
  }

  /** On distinct hosts the in-place cut and the rebuilding removal of the route controller
      give the same list. */
  lemma {:induction false} CutIsRemoval(s: seq<Entry>, host: Host)
    requires Distinct(s)
    ensures Cut(s, host) == Without(s, host)
  {
    if s != [] {
      assert s == [s[0]] + s[1..];
      WithoutFront(s[0], s[1..], host);
      DistinctTail(s);
      if s[0].host == host {
        WithoutUnlisted(s[1..], host);
      } else {
        CutIsRemoval(s[1..], host);
      }
    }
  }

  /** The NodeStatus slice of one route: a buffer and the length in use. */
  class StatusSlice {
    const buffer: array<Entry>
    var length: nat

    constructor (buffer: array<Entry>)
      ensures this.buffer == buffer && length == buffer.Length
    {
      this.buffer, length := buffer, buffer.Length;
    }

    predicate Valid()
      reads this
    {
      length <= buffer.Length
    }

    function Contents(): seq<Entry>
      requires Valid()
      reads this, buffer
    {
      buffer[..length]
    }

    /** Shift the tail over slot `k`, reset the last slot, and truncate. */
    method ShiftOut(k: nat)
      requires Valid() && k < length
      modifies this, buffer
      ensures Valid() && Contents() == old(Contents()[..k] + Contents()[k + 1..])
      ensures length == old(length) - 1 && buffer[length] == ZERO_ENTRY
    {
      ghost var was := Contents();
      var i := k;
      while i + 1 < length
        invariant k <= i < length == |was|
        invariant buffer[..k] == was[..k]
        invariant buffer[k..i] == was[k + 1..i + 1]
        invariant buffer[i..length] == was[i..]
      {
        assert buffer[i + 1] == buffer[i..length][1] == was[i + 1];
        assert buffer[i + 1..length] == buffer[i..length][1..] == was[i + 1..];
        buffer[i] := buffer[i + 1];
        i := i + 1;
        assert buffer[k..i] == buffer[k..i - 1] + [was[i]];
      }
      buffer[length - 1] := ZERO_ENTRY;
      length := length - 1;
      assert buffer[..length] == buffer[..k] + buffer[k..length];
    }
  }

  /** The update callback: the API server's verdict on each status write, and what was sent. */
  class UpdateCallback {
    const verdict: nat -> Option<string>
    var written: seq<seq<Entry>>

    constructor (verdict: nat -> Option<string>)
      ensures this.verdict == verdict && written == []
    {
      this.verdict, written := verdict, [];
    }

    method Call(status: seq<Entry>) returns (err: Option<string>)
      modifies this
      ensures written == old(written) + [status]
      ensures err == verdict(|old(written)|)
    {
      err := verdict(|written|);
      written := written + [status];
    }
  }

  /** What is written for one list: the list with the host cut out, if it mentions it. */
  ghost function CutOne(list: seq<Entry>, host: Host): seq<seq<Entry>> {
    if Listed(list, host) then [Cut(list, host)] else []
  }

  /** What is written for the first `n` lists. */
  ghost function CutLists(lists: seq<seq<Entry>>, host: Host, n: nat): seq<seq<Entry>>
    requires n <= |lists|
  {
    if n == 0 then [] else CutLists(lists, host, n - 1) + CutOne(lists[n - 1], host)
  }

  /** Of `writes` writes after the first `base`, all were accepted if there is no error; otherwise
      the last one was refused with that error, and all before it were accepted. */
  predicate StoppedBy(verdict: nat -> Option<string>, base: nat, writes: nat, err: Option<string>) {
    (err.None? ==> forall i: nat :: base <= i < base + writes ==> verdict(i).None?)
    && (err.Some? ==> writes > 0 && verdict(base + writes - 1) == err
                      && forall i: nat :: base <= i < base + writes - 1 ==> verdict(i).None?)
  }

  ghost predicate Separate(routes: seq<StatusSlice>) {
    forall i, j :: 0 <= i < |routes| && 0 <= j < |routes| && i != j ==>
      routes[i] != routes[j] && routes[i].buffer != routes[j].buffer
  }

  /** The slices and their buffers. */
  ghost function Touched(routes: seq<StatusSlice>): set<object> {
    (set s: StatusSlice | s in routes :: s as object) + (set s: StatusSlice | s in routes :: s.buffer as object)
  }

  lemma TouchedAt(routes: seq<StatusSlice>, k: nat)
    requires k < |routes|
    ensures routes[k] in Touched(routes) && routes[k].buffer in Touched(routes)
  {
    assert routes[k] in routes;
  }

  /** `lists` is what the slices hold. */
  ghost predicate Hold(routes: seq<StatusSlice>, lists: seq<seq<Entry>>)
    reads set s | s in routes :: s
    reads set s: StatusSlice | s in routes :: s.buffer
  {
    |routes| == |lists| && forall i :: 0 <= i < |routes| ==> routes[i].Valid() && routes[i].Contents() == lists[i]
  }

  /** The lists after a pass that has reached position `seen`. */
  function Passed(lists: seq<seq<Entry>>, host: Host, seen: nat): (r: seq<seq<Entry>>)
    requires seen <= |lists|
    ensures |r| == |lists|
    ensures forall i :: 0 <= i < seen ==> r[i] == Cut(lists[i], host)
    ensures forall i :: seen <= i < |lists| ==> r[i] == lists[i]
  {
    seq(|lists|, i requires 0 <= i < |lists| => if i < seen then Cut(lists[i], host) else lists[i])
  }

  class NodeFinder {
    const nodeName: Host
    const updateCallback: UpdateCallback

    constructor (nodeName: Host, updateCallback: UpdateCallback)
      ensures this.nodeName == nodeName && this.updateCallback == updateCallback
    {
      this.nodeName, this.updateCallback := nodeName, updateCallback;
    }

    method FindNode(route: StatusSlice) returns (k: int)
      requires route.Valid()
      ensures k == -1 <==> !Listed(route.Contents(), nodeName)
      ensures k != -1 ==> 0 <= k < route.length && route.Contents()[k].host == nodeName
      ensures k != -1 ==> forall j :: 0 <= j < k ==> route.Contents()[j].host != nodeName
    {
      for i := 0 to route.length
        invariant forall j :: 0 <= j < i ==> route.Contents()[j].host != nodeName
      {
        if route.buffer[i].host == nodeName {
          assert route.Contents()[i] in route.Contents();
          return i;
        }
      }
      return -1;
    }

    /** One route: cut the node out and write the status, if the node is listed. */
    method DeleteOne(route: StatusSlice) returns (err: Option<string>)
      requires route.Valid()
      modifies route, route.buffer, updateCallback
      ensures route.Valid() && route.Contents() == Cut(old(route.Contents()), nodeName)
      ensures updateCallback.written ==
              old(updateCallback.written) + CutOne(old(route.Contents()), nodeName)
      ensures err == if Listed(old(route.Contents()), nodeName)
                     then updateCallback.verdict(|old(updateCallback.written)|) else None
    {
      var statusToDelete := FindNode(route);
      if statusToDelete == -1 {
        CutUnlisted(route.Contents(), nodeName);
        return None;
      }
      CutAt(route.Contents(), nodeName, statusToDelete);
      assert route.Contents()[statusToDelete] in route.Contents();
      route.ShiftOut(statusToDelete);
      err := updateCallback.Call(route.buffer[..route.length]);
    }

    /** The route at one position; the others are separate and keep their lists. */
    method DeleteAt(routes: seq<StatusSlice>, k: nat, ghost lists: seq<seq<Entry>>) returns (err: Option<string>)
      requires k < |routes| == |lists| && Separate(routes) && Hold(routes, Passed(lists, nodeName, k))
      modifies Touched(routes), updateCallback
      ensures Hold(routes, Passed(lists, nodeName, k + 1))
      ensures updateCallback.written == old(updateCallback.written) + CutOne(lists[k], nodeName)
      ensures err == if Listed(lists[k], nodeName) then updateCallback.verdict(|old(updateCallback.written)|) else None
    {
      TouchedAt(routes, k);
      err := DeleteOne(routes[k]);
      assert forall i :: 0 <= i < |routes| && i != k ==>
          routes[i].Valid() && routes[i].Contents() == Passed(lists, nodeName, k)[i];
    }

    /** A pass that began with `written` as the writes made has reached position `seen`: the lists up
        to there are cut, the rest are as they were, the new writes are the cut lists, and the
        error is the verdict on the last of them, all before it being accepted. */
    ghost predicate Reached(routes: seq<StatusSlice>, lists: seq<seq<Entry>>, written: seq<seq<Entry>>, seen: nat,
                            err: Option<string>)
      requires seen <= |lists|
      reads Touched(routes), updateCallback
    {
      Hold(routes, Passed(lists, nodeName, seen))
      && updateCallback.written == written + CutLists(lists, nodeName, seen)
      && StoppedBy(updateCallback.verdict, |written|, |CutLists(lists, nodeName, seen)|, err)
    }

    method DeleteNext(routes: seq<StatusSlice>, k: nat, ghost lists: seq<seq<Entry>>, ghost written: seq<seq<Entry>>)
      returns (err: Option<string>)
      requires k < |routes| == |lists| && Separate(routes) && Reached(routes, lists, written, k, None)
      modifies Touched(routes), updateCallback
      ensures Reached(routes, lists, written, k + 1, err) && (err.Some? ==> Listed(lists[k], nodeName))
    {
      ghost var verdict, n := updateCallback.verdict, |CutLists(lists, nodeName, k)|;
      assert StoppedBy(verdict, |written|, n, None) && |updateCallback.written| == |written| + n;
      err := DeleteAt(routes, k, lists);
      VerdictStep(lists, nodeName, k, verdict, |written|, err);
    }

    /** Clean every route in order, stopping at the first refused write. `seen` routes were
        looked at; the last of them is the refused one if there is an error. */
    method Delete(routes: seq<StatusSlice>, ghost lists: seq<seq<Entry>>) returns (seen: nat, err: Option<string>)
      requires Separate(routes) && Hold(routes, lists)
      modifies Touched(routes), updateCallback
      ensures seen <= |lists| && Reached(routes, lists, old(updateCallback.written), seen, err)
      ensures err.None? ==> seen == |routes|
      ensures err.Some? ==> seen > 0 && Listed(lists[seen - 1], nodeName)
    {
      ghost var written := updateCallback.written;
      seen, err := 0, None;
      PassedNone(lists, nodeName);
      while seen < |routes|
        invariant seen <= |routes| == |lists| && err.None?
        invariant Reached(routes, lists, written, seen, err)
      {
        err := DeleteNext(routes, seen, lists, written);
        seen := seen + 1;
        if err.Some? {
          return;
        }
      }
    }
  }

  lemma PassedNone(lists: seq<seq<Entry>>, host: Host)
    ensures Passed(lists, host, 0) == lists
  { }

  /** One list more, with the verdict on its write if it has one. */
  lemma VerdictStep(lists: seq<seq<Entry>>, host: Host, k: nat, verdict: nat -> Option<string>, base: nat,
                    err: Option<string>)
    requires k < |lists| && StoppedBy(verdict, base, |CutLists(lists, host, k)|, None)
    requires err == if Listed(lists[k], host) then verdict(base + |CutLists(lists, host, k)|) else None
    ensures StoppedBy(verdict, base, |CutLists(lists, host, k + 1)|, err)
  { }

  /** A complete pass over lists with distinct hosts leaves no entry for the node anywhere, and
      every other entry in place and in order; a stopped one leaves the later lists alone. */
  lemma PassCleans(lists: seq<seq<Entry>>, host: Host, seen: nat, i: nat)
    requires seen <= |lists| && i < |lists| && Distinct(lists[i])
    ensures i < seen ==>
              !Listed(Passed(lists, host, seen)[i], host) && Passed(lists, host, seen)[i] == Without(lists[i], host)
    ensures i >= seen ==> Passed(lists, host, seen)[i] == lists[i]
  {
    CleanedMentionsNoOne(lists[i], host);
    CutIsRemoval(lists[i], host);
  }

  /** On lists with distinct hosts, what a successful pass leaves never mentions the node, and
      keeps every other entry in order. */
  lemma CleanedMentionsNoOne(s: seq<Entry>, host: Host)
    requires Distinct(s)
    ensures !Listed(Cut(s, host), host) && Without(Cut(s, host), host) == Without(s, host) && Distinct(Cut(s, host))
  {
    CutIsRemoval(s, host);
    WithoutTwice(s, host);
    WithoutDistinct(s, host);
  }
}
