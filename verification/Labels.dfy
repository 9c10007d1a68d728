/** The filter on node updates: does a node's label change require reconciling every route? */
module Labels {

  type LabelMap = map<string, string>

  /** A Go map lookup: a missing key reads as the empty string. */
  function Lookup(m: LabelMap, key: string): string {
    if key in m then m[key] else ""
  }

  /** Old and new label sets are equally large, and every old label reads the same afterwards. */
  ghost predicate LooksUnchanged(before: LabelMap, after: LabelMap) {
    |before| == |after| && forall k :: k in before ==> Lookup(after, k) == before[k]
  }

  /** The update filter; labels are visited in no particular order. */
  method LabelsChanged(before: LabelMap, after: LabelMap) returns (r: bool)
    ensures r <==> !LooksUnchanged(before, after)
  {
    if |after| != |before| {
      return true;
    }
    var keys := before.Keys;
    while keys != {}
      invariant keys <= before.Keys
      invariant forall k :: k in before && k !in keys ==> Lookup(after, k) == before[k]
      decreases keys
    {
      var k :| k in keys;
      if Lookup(after, k) != before[k] {
        return true;
      }
      keys := keys - {k};
    }
    return false;
  }

  /** Labels with empty values are exchanged for as many new ones, and all others are kept. */
  ghost predicate EmptyExchanged(before: LabelMap, after: LabelMap) {
    var dropped, added := before.Keys - after.Keys, after.Keys - before.Keys;
    dropped != {} && |dropped| == |added|
    && (forall k :: k in dropped ==> before[k] == "")
    && (forall k :: k in before.Keys * after.Keys ==> after[k] == before[k])
  }

  /** The filter fires iff the label sets differ, except that it misses exactly the exchanges of
      empty labels for new ones. */
  lemma FilterExactly(before: LabelMap, after: LabelMap)
    ensures LooksUnchanged(before, after) <==> before == after || EmptyExchanged(before, after)
  { }

  /** Such an update exists. */
  lemma FilterMissExample()
    ensures var before, after := map["zone" := ""], map["rack" := "r1"];
            before != after && LooksUnchanged(before, after)
  {
    var before, after: LabelMap := map["zone" := ""], map["rack" := "r1"];
    assert before.Keys == {"zone"} && after.Keys == {"rack"};
    assert |before| == |before.Keys| == 1 && |after| == |after.Keys| == 1;
    assert "zone" in before && "zone" !in after;
  }
}
