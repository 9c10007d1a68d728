/** What the node list of a round says about the round's own node: the list call asks for the CR's
    selectors and for the node's own host name, so it finds a node iff the own labels match. */
module Selection {
  import opened Ipv4
  import opened StaticRoutes
  import opened Reconcile
  import opened Cluster
  import opened Settling
  import opened Labels

  /** The nodes of the cluster with their labels. Every node is labelled with its host name. */
  type NodeLabels = map<Host, LabelMap>

  predicate HostnamesLabelled(nodes: NodeLabels) {
    forall g :: g in nodes ==>
      "kubernetes.io/hostname" in nodes[g] && nodes[g]["kubernetes.io/hostname"] == g
  }

  /** The label library's matching of one requirement. Only its answer to "the host name is one of
      these" is fixed. */
  type Matching = (LabelMap, Requirement) -> bool

  ghost predicate MatchesHostnames(matches: Matching) {
    forall l, values :: matches(l, Requirement("kubernetes.io/hostname", OpIn, values)) <==>
      "kubernetes.io/hostname" in l && l["kubernetes.io/hostname"] in values
  }

  /** The labels satisfy all requirements. */
  ghost predicate Satisfies(matches: Matching, l: LabelMap, requirements: seq<Requirement>) {
    forall r :: r in requirements ==> matches(l, r)
  }

  ghost function Matched(matches: Matching, nodes: NodeLabels, requirements: seq<Requirement>): set<Host> {
    set g | g in nodes && Satisfies(matches, nodes[g], requirements)
  }

  /** The list call of a round finds nobody, or just the round's own node: the latter iff the node's
      labels satisfy the CR's selectors. */
  lemma ListFindsOwnNode(matches: Matching, nodes: NodeLabels, o: Options, w: Resource, asked: seq<Requirement>)
    requires HostnamesLabelled(nodes) && MatchesHostnames(matches)
    requires Pending(o, AwaitList(w)) == CList(asked)
    ensures Matched(matches, nodes, asked) ==
            if o.host in nodes && Satisfies(matches, nodes[o.host], w.spec.selectors) then {o.host} else {}
  {
    var own := Requirement("kubernetes.io/hostname", OpIn, [o.host]);
    assert asked == w.spec.selectors + [own];
    forall g | g in nodes
      ensures Satisfies(matches, nodes[g], asked) <==> g == o.host && Satisfies(matches, nodes[g], w.spec.selectors)
    {
      assert own in asked;
      assert matches(nodes[g], own) <==> g in [o.host];
    }
  }

  /** The answer to a round's list call is the number of nodes it finds. */
  ghost predicate CountsNodes(s: Setup, matches: Matching, nodes: NodeLabels, h: Host, w: Resource, ch: Choices) {
    ch(LIST).fail.None? ==>
      var call := Pending(s.options(h), AwaitList(w));
      call.CList? && ch(LIST).nodes == |Matched(matches, nodes, call.selectors)|
  }

  /** So the round is selected, or not, by its own node's labels: the withdrawal and convergence
      results speak of nodes that match. */
  lemma SelectedByOwnLabels(s: Setup, matches: Matching, nodes: NodeLabels, h: Host, w: Resource, ch: Choices)
    requires ValidSetup(s) && HostnamesLabelled(nodes) && MatchesHostnames(matches) && h in nodes
    requires CountsNodes(s, matches, nodes, h, w, ch)
    requires SelectorsUsable(s.options(h), w.spec.selectors) && ch(LIST).fail.None?
    ensures Selected(s.options(h), w.spec, ch) <==> Satisfies(matches, nodes[h], w.spec.selectors)
    ensures Deselected(s.options(h), w.spec, ch) <==> !Satisfies(matches, nodes[h], w.spec.selectors)
  {
    var call := Pending(s.options(h), AwaitList(w));
    ListFindsOwnNode(matches, nodes, s.options(h), w, call.selectors);
  }

  /** A listed node whose labels no longer satisfy the selectors is withdrawn by one round. */
  lemma LostLabelsWithdraw(s: Setup, matches: Matching, nodes: NodeLabels, w: World, h: Host, ch: Choices, gw: Ip)
    requires ValidSetup(s) && HostnamesLabelled(nodes) && MatchesHostnames(matches) && h in nodes
    requires GoesThrough(s, w, h, ch, gw) && Undisturbed(ch) && Listed(w.obj.value.status, h)
    requires CountsNodes(s, matches, nodes, h, w.obj.value, ch)
    requires SelectorsUsable(s.options(h), w.obj.value.spec.selectors) && ch(LIST).fail.None?
    requires !Satisfies(matches, nodes[h], w.obj.value.spec.selectors)
    ensures Withdrawn(s, w, h, Round(s, w, h, ch).world) && !ListedIn(Round(s, w, h, ch).world, h)
  {
    SelectedByOwnLabels(s, matches, nodes, h, w.obj.value, ch);
    LabelChangeWithdraws(s, w, h, ch, gw);
  }
}
