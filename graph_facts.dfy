/** What `build_petgraph` promises about the graph it builds
    (src/graph.rs:44-218), stated on the specification functions that
    `Graph.BuildPetgraph` is proved to compute. */
module GraphFacts {
  import opened Wrappers
  import Text
  import Sorting
  import opened Graph

  // ---------------------------------------------------------------------
  // Nodes

  lemma NodeCount(net: Net)
    requires WellFormed(net)
    ensures |Nodes(net)| == Base(net) + |net.ids|
  {
    SortedIdsFacts(net);
  }

  /** Node `j` is a global input, a global output or a unit according to
      its position, and carries the label, port and unit id of its kind. */
  lemma NodeAt(net: Net, j: nat)
    requires WellFormed(net) && j < |Nodes(net)|
    ensures Nodes(net)[j].kind == GlobalIn <==> j < net.inputs
    ensures Nodes(net)[j].kind == GlobalOut <==> net.inputs <= j < Base(net)
    ensures Nodes(net)[j].kind == GlobalIn ==>
      Nodes(net)[j].text == "IN[" + Text.NatToString(j) + "]"
      && Nodes(net)[j].port == Some(j) && Nodes(net)[j].unitId == None
    ensures Nodes(net)[j].kind == GlobalOut ==>
      Nodes(net)[j].text == "OUT[" + Text.NatToString(j - net.inputs) + "]"
      && Nodes(net)[j].port == Some(j - net.inputs) && Nodes(net)[j].unitId == None
    ensures Nodes(net)[j].kind == UnitNode ==>
      (&& Nodes(net)[j].unitId.Some?
       && Nodes(net)[j].unitId.value in net.units
       && Nodes(net)[j].text == net.units[Nodes(net)[j].unitId.value].display
       && Nodes(net)[j].port == None)
  {
    SortedIdsFacts(net);
    var s := SortedIds(net);
    if j >= Base(net) {
      assert Nodes(net)[j] == UnitNodeOf(net, s[j - Base(net)]);
    }
  }

  /** Unit nodes appear in strictly ascending id order. */
  lemma UnitNodesAscending(net: Net, i: nat, j: nat)
    requires WellFormed(net)
    requires Base(net) <= i < j < |Nodes(net)|
    ensures Nodes(net)[i].unitId.Some? && Nodes(net)[j].unitId.Some?
    ensures Nodes(net)[i].unitId.value < Nodes(net)[j].unitId.value
  {
    SortedIdsFacts(net);
    var s := SortedIds(net);
    assert Nodes(net)[i] == UnitNodeOf(net, s[i - Base(net)]);
    assert Nodes(net)[j] == UnitNodeOf(net, s[j - Base(net)]);
  }

  /** Every unit has a node, at `UnitIndex`, past the global nodes. */
  lemma UnitNodeIndex(net: Net, id: nat)
    requires WellFormed(net) && id in net.units
    ensures Base(net) <= UnitIndex(net, id) < |Nodes(net)|
    ensures Nodes(net)[UnitIndex(net, id)].unitId == Some(id)
  {
    SortedIdsFacts(net);
    var s := SortedIds(net);
    var j :| 0 <= j < |s| && s[j] == id;
    IdIndexAt(s, Base(net), j);
    assert Nodes(net)[Base(net) + j] == UnitNodeOf(net, s[j]);
  }

  // ---------------------------------------------------------------------
  // Edges: which exist

  function InputCount(net: Net, k: nat): nat
    requires WellFormed(net) && k < |SortedIds(net)|
  {
    SortedIdsFacts(net);
    |net.units[SortedIds(net)[k]].sources|
  }

  function InputSource(net: Net, k: nat, i: nat): Source
    requires WellFormed(net) && k < |SortedIds(net)| && i < InputCount(net, k)
  {
    SortedIdsFacts(net);
    net.units[SortedIds(net)[k]].sources[i]
  }

  /** The rule of graph.rs:129-160 for input `i` of the `k`-th unit in id
      order: a local source gives an edge from that unit's node with both
      ports, a global source an edge from `IN[g]` with only the input port,
      and an edge exists only when its source node exists. */
  ghost predicate InputRule(net: Net, k: nat, i: nat, e: DspEdge)
    requires WellFormed(net) && k < |SortedIds(net)| && i < InputCount(net, k)
  {
    match InputSource(net, k, i)
    case Local(src, p) =>
      src in net.units && e == DspEdge(UnitIndex(net, src), Base(net) + k, Some(p), Some(i))
    case Global(g) =>
      g < net.inputs && e == DspEdge(g, Base(net) + k, None, Some(i))
    case Zero => false
  }

  /** The rule of graph.rs:166-200 for global output `o`. */
  ghost predicate OutputRule(net: Net, o: nat, e: DspEdge)
    requires WellFormed(net) && o < net.outputs
  {
    match net.outputSources[o]
    case Local(src, p) =>
      src in net.units && e == DspEdge(UnitIndex(net, src), net.inputs + o, Some(p), None)
    case Global(g) =>
      g < net.inputs && e == DspEdge(g, net.inputs + o, None, None)
    case Zero => false
  }

  lemma {:induction false} InputEdgesMembers(net: Net, idx: map<nat, nat>, id: nat, n: nat, e: DspEdge)
    requires id in net.units && n <= |net.units[id].sources|
    ensures e in InputEdgesOf(net, idx, id, n) <==>
      exists i :: 0 <= i < n && InputEdge(net, idx, id, i) == Some(e)
    decreases n
  {
    if n > 0 {
      InputEdgesMembers(net, idx, id, n - 1, e);
    }
  }

  lemma {:induction false} UnitEdgesMembers(net: Net, idx: map<nat, nat>, s: seq<nat>, k: nat, e: DspEdge)
    requires forall id :: id in s ==> id in net.units
    requires k <= |s|
    ensures e in UnitEdges(net, idx, s, k) <==>
      exists j, i :: 0 <= j < k && 0 <= i < |net.units[s[j]].sources| && InputEdge(net, idx, s[j], i) == Some(e)
    decreases k
  {
    if k > 0 {
      UnitEdgesMembers(net, idx, s, k - 1, e);
      InputEdgesMembers(net, idx, s[k - 1], |net.units[s[k - 1]].sources|, e);
      UnitEdgesStep(net, idx, s, k - 1, e);
    }
  }

  /** An input of the first `k + 1` units is an input of the first `k` or of unit `k`. */
  lemma UnitEdgesStep(net: Net, idx: map<nat, nat>, s: seq<nat>, k: nat, e: DspEdge)
    requires forall id :: id in s ==> id in net.units
    requires k < |s|
    ensures (exists j, i :: 0 <= j < k + 1 && 0 <= i < |net.units[s[j]].sources| && InputEdge(net, idx, s[j], i) == Some(e))
        <==> (|| (exists j, i :: 0 <= j < k && 0 <= i < |net.units[s[j]].sources| && InputEdge(net, idx, s[j], i) == Some(e))
              || (exists i :: 0 <= i < |net.units[s[k]].sources| && InputEdge(net, idx, s[k], i) == Some(e)))
  {
    if exists j, i :: 0 <= j < k + 1 && 0 <= i < |net.units[s[j]].sources| && InputEdge(net, idx, s[j], i) == Some(e) {
      var j, i :| 0 <= j < k + 1 && 0 <= i < |net.units[s[j]].sources| && InputEdge(net, idx, s[j], i) == Some(e);
      if j < k {
        assert 0 <= j < k && 0 <= i < |net.units[s[j]].sources| && InputEdge(net, idx, s[j], i) == Some(e);
      }
    }
    if exists i :: 0 <= i < |net.units[s[k]].sources| && InputEdge(net, idx, s[k], i) == Some(e) {
      var i :| 0 <= i < |net.units[s[k]].sources| && InputEdge(net, idx, s[k], i) == Some(e);
      assert 0 <= k < k + 1 && 0 <= i < |net.units[s[k]].sources| && InputEdge(net, idx, s[k], i) == Some(e);
    }
  }

  lemma {:induction false} OutputEdgesMembers(net: Net, idx: map<nat, nat>, n: nat, e: DspEdge)
    requires n <= |net.outputSources|
    ensures e in OutputEdges(net, idx, n) <==>
      exists o :: 0 <= o < n && OutputEdge(net, idx, o) == Some(e)
    decreases n
  {
    if n > 0 {
      OutputEdgesMembers(net, idx, n - 1, e);
    }
  }

  lemma InputEdgeMatchesRule(net: Net, k: nat, i: nat, e: DspEdge)
    requires WellFormed(net) && k < |SortedIds(net)| && i < InputCount(net, k)
    ensures InputEdge(net, IdMap(net), SortedIds(net)[k], i) == Some(e) <==> InputRule(net, k, i, e)
  {
    var id := SortedIds(net)[k];
    var idx := IdMap(net);
    assert id in net.units && id in idx && idx[id] == Base(net) + k by {
      SortedIdsFacts(net);
      IdIndexAt(SortedIds(net), Base(net), k);
    }
    assert forall src :: src in idx <==> src in net.units by {
      SortedIdsFacts(net);
    }
    assert InputSource(net, k, i) == net.units[id].sources[i];
    match net.units[id].sources[i]
    case Local(src, p) =>
      assert src in idx <==> src in net.units;
    case Global(g) =>
    case Zero =>
  }

  lemma OutputEdgeMatchesRule(net: Net, o: nat, e: DspEdge)
    requires WellFormed(net) && o < net.outputs
    ensures OutputEdge(net, IdMap(net), o) == Some(e) <==> OutputRule(net, o, e)
  {
    SortedIdsFacts(net);
  }

  lemma InputSide(net: Net, e: DspEdge)
    requires WellFormed(net)
    ensures (exists j, i :: 0 <= j < |SortedIds(net)| && 0 <= i < |net.units[SortedIds(net)[j]].sources|
               && InputEdge(net, IdMap(net), SortedIds(net)[j], i) == Some(e))
        <==> (exists k, i :: 0 <= k < |SortedIds(net)| && 0 <= i < InputCount(net, k) && InputRule(net, k, i, e))
  {
    var s := SortedIds(net);
    forall k, i | 0 <= k < |s| && 0 <= i < InputCount(net, k)
      ensures InputEdge(net, IdMap(net), s[k], i) == Some(e) <==> InputRule(net, k, i, e)
    {
      InputEdgeMatchesRule(net, k, i, e);
    }
  }

  lemma OutputSide(net: Net, e: DspEdge)
    requires WellFormed(net)
    ensures (exists o :: 0 <= o < net.outputs && OutputEdge(net, IdMap(net), o) == Some(e))
        <==> (exists o :: 0 <= o < net.outputs && OutputRule(net, o, e))
  {
    forall o | 0 <= o < net.outputs
      ensures OutputEdge(net, IdMap(net), o) == Some(e) <==> OutputRule(net, o, e)
    {
      OutputEdgeMatchesRule(net, o, e);
    }
  }

  ghost predicate FromInput(net: Net, e: DspEdge)
    requires WellFormed(net)
  {
    exists k, i :: 0 <= k < |SortedIds(net)| && 0 <= i < InputCount(net, k) && InputRule(net, k, i, e)
  }

  ghost predicate FromOutput(net: Net, e: DspEdge)
    requires WellFormed(net)
  {
    exists o :: 0 <= o < net.outputs && OutputRule(net, o, e)
  }

  /** An edge is in the graph exactly when a unit input or a global output
      gives rise to it under the rules above. */
  lemma EdgeOrigins(net: Net, e: DspEdge)
    requires WellFormed(net)
    ensures e in Edges(net) <==>
      (|| (exists k, i :: 0 <= k < |SortedIds(net)| && 0 <= i < InputCount(net, k) && InputRule(net, k, i, e))
       || (exists o :: 0 <= o < net.outputs && OutputRule(net, o, e)))
  {
    var s := SortedIds(net);
    Sorting.SortByMembers(RawEdges(net), EdgeLeq, e);
    assert e in RawEdges(net) <==>
      e in UnitEdges(net, IdMap(net), s, |s|) || e in OutputEdges(net, IdMap(net), net.outputs);
    UnitEdgesMembers(net, IdMap(net), s, |s|, e);
    OutputEdgesMembers(net, IdMap(net), net.outputs, e);
    InputSide(net, e);
    OutputSide(net, e);
  }

  /** A global input's node never receives an edge and a global output's
      node never sends one; an edge lacks its source port exactly when it
      leaves a global input and lacks its destination port exactly when it
      enters a global output. */
  lemma EdgeEndpoints(net: Net, e: DspEdge)
    requires WellFormed(net)
    requires e in Edges(net)
    ensures e.src < |Nodes(net)| && e.dst < |Nodes(net)|
    ensures net.inputs <= e.dst
    ensures e.src < net.inputs || Base(net) <= e.src
    ensures e.srcPort.None? <==> e.src < net.inputs
    ensures e.dstPort.None? <==> e.dst < Base(net)
  {
    EdgeOrigins(net, e);
    if exists k, i :: 0 <= k < |SortedIds(net)| && 0 <= i < InputCount(net, k) && InputRule(net, k, i, e) {
      var k, i :| 0 <= k < |SortedIds(net)| && 0 <= i < InputCount(net, k) && InputRule(net, k, i, e);
      InputRuleEndpoints(net, k, i, e);
    } else {
      var o :| 0 <= o < net.outputs && OutputRule(net, o, e);
      OutputRuleEndpoints(net, o, e);
    }
  }

  /** Where an edge made by a unit input's rule starts and ends. */
  lemma InputRuleEndpoints(net: Net, k: nat, i: nat, e: DspEdge)
    requires WellFormed(net) && k < |SortedIds(net)| && i < InputCount(net, k)
    requires InputRule(net, k, i, e)
    ensures e.src < |Nodes(net)| && Base(net) <= e.dst < |Nodes(net)|
    ensures e.src < net.inputs || Base(net) <= e.src
    ensures e.srcPort.None? <==> e.src < net.inputs
    ensures e.dstPort.Some?
  {
    NodeCount(net);
    match InputSource(net, k, i)
    case Local(src, p) => UnitNodeIndex(net, src);
    case Global(g) =>
  }

  /** Where an edge made by a global output's rule starts and ends. */
  lemma OutputRuleEndpoints(net: Net, o: nat, e: DspEdge)
    requires WellFormed(net) && o < net.outputs
    requires OutputRule(net, o, e)
    ensures e.src < |Nodes(net)| && net.inputs <= e.dst < Base(net)
    ensures e.src < net.inputs || Base(net) <= e.src
    ensures e.srcPort.None? <==> e.src < net.inputs
    ensures e.dstPort.None?
  {
    NodeCount(net);
    match net.outputSources[o]
    case Local(src, p) => UnitNodeIndex(net, src);
    case Global(g) =>
  }

  /** A unit input reading `Zero` has no edge into it (graph.rs:158-160). */
  lemma ZeroInputNoEdge(net: Net, k: nat, i: nat, e: DspEdge)
    requires WellFormed(net) && k < |SortedIds(net)| && i < InputCount(net, k)
    requires InputSource(net, k, i) == Zero
    ensures e in Edges(net) ==> !(e.dst == Base(net) + k && e.dstPort == Some(i))
  {
    if e.dst == Base(net) + k && e.dstPort == Some(i) {
      forall k2, i2 | 0 <= k2 < |SortedIds(net)| && 0 <= i2 < InputCount(net, k2)
        ensures !InputRule(net, k2, i2, e)
      {
        NoInputRuleFromZero(net, k, i, e, k2, i2);
      }
      forall o | 0 <= o < net.outputs ensures !OutputRule(net, o, e) {
        NoOutputRuleIntoPort(net, o, e);
      }
      NoRuleNoEdge(net, e);
    }
  }

  lemma NoInputRuleFromZero(net: Net, k: nat, i: nat, e: DspEdge, k2: nat, i2: nat)
    requires WellFormed(net) && k < |SortedIds(net)| && i < InputCount(net, k)
    requires k2 < |SortedIds(net)| && i2 < InputCount(net, k2)
    requires InputSource(net, k, i) == Zero
    requires e.dst == Base(net) + k && e.dstPort == Some(i)
    ensures !InputRule(net, k2, i2, e)
  {
    if InputRule(net, k2, i2, e) {
      InputRuleTarget(net, k2, i2, e);
    }
  }

  lemma NoOutputRuleIntoPort(net: Net, o: nat, e: DspEdge)
    requires WellFormed(net) && o < net.outputs
    requires e.dstPort.Some?
    ensures !OutputRule(net, o, e)
  {
    if OutputRule(net, o, e) {
      OutputRuleEndpoints(net, o, e);
    }
  }

  /** An edge no rule makes is not in the graph. */
  lemma NoRuleNoEdge(net: Net, e: DspEdge)
    requires WellFormed(net)
    requires forall k, i :: 0 <= k < |SortedIds(net)| && 0 <= i < InputCount(net, k) ==> !InputRule(net, k, i, e)
    requires forall o :: 0 <= o < net.outputs ==> !OutputRule(net, o, e)
    ensures e !in Edges(net)
  {
    EdgeOrigins(net, e);
  }

  /** The edge an input rule makes enters that input, and it reads no `Zero`. */
  lemma InputRuleTarget(net: Net, k: nat, i: nat, e: DspEdge)
    requires WellFormed(net) && k < |SortedIds(net)| && i < InputCount(net, k)
    requires InputRule(net, k, i, e)
    ensures e.dst == Base(net) + k && e.dstPort == Some(i)
    ensures InputSource(net, k, i) != Zero
  {
  }

  /** A global output reading `Zero` has no edge into it (graph.rs:197-199). */
  lemma ZeroOutputNoEdge(net: Net, o: nat, e: DspEdge)
    requires WellFormed(net) && o < net.outputs
    requires net.outputSources[o] == Zero
    ensures e in Edges(net) ==> e.dst != net.inputs + o
  {
    EdgeOrigins(net, e);
    assert e in Edges(net) ==> FromInput(net, e) || FromOutput(net, e);
    FromInputDst(net, e);
    FromOutputZero(net, o, e);
  }

  lemma FromInputDst(net: Net, e: DspEdge)
    requires WellFormed(net)
    ensures FromInput(net, e) ==> e.dst >= Base(net)
  {
  }

  lemma FromOutputZero(net: Net, o: nat, e: DspEdge)
    requires WellFormed(net) && o < net.outputs
    requires net.outputSources[o] == Zero
    ensures FromOutput(net, e) ==> e.dst != net.inputs + o
  {
  }

  // ---------------------------------------------------------------------
  // Edges: their order

  lemma EdgeLeqOrder()
    ensures Sorting.Total(EdgeLeq) && Sorting.Transitive(EdgeLeq)
  {
  }

  /** Edges are inserted in ascending order of their key
      (graph.rs:204-215). */
  lemma EdgesSorted(net: Net, i: nat, j: nat)
    requires WellFormed(net)
    requires i < j < |Edges(net)|
    ensures EdgeLeq(Edges(net)[i], Edges(net)[j])
  {
    EdgeLeqOrder();
    Sorting.SortBySorted(RawEdges(net), EdgeLeq);
    Sorting.SortedPairs(Edges(net), EdgeLeq, i, j);
  }

  // ---------------------------------------------------------------------
  // Independence from the order of `Net::ids`

  lemma {:induction false} InputEdgesOfSame(net: Net, net2: Net, idx: map<nat, nat>, id: nat, n: nat)
    requires net2.units == net.units && net2.inputs == net.inputs
    requires id in net.units && n <= |net.units[id].sources|
    ensures InputEdgesOf(net2, idx, id, n) == InputEdgesOf(net, idx, id, n)
    decreases n
  {
    if n > 0 {
      InputEdgesOfSame(net, net2, idx, id, n - 1);
    }
  }

  lemma {:induction false} UnitEdgesSame(net: Net, net2: Net, idx: map<nat, nat>, s: seq<nat>, k: nat)
    requires net2.units == net.units && net2.inputs == net.inputs
    requires forall id :: id in s ==> id in net.units
    requires k <= |s|
    ensures UnitEdges(net2, idx, s, k) == UnitEdges(net, idx, s, k)
    decreases k
  {
    if k > 0 {
      UnitEdgesSame(net, net2, idx, s, k - 1);
      InputEdgesOfSame(net, net2, idx, s[k - 1], |net.units[s[k - 1]].sources|);
    }
  }

  lemma {:induction false} OutputEdgesSame(net: Net, net2: Net, idx: map<nat, nat>, n: nat)
    requires net2.outputSources == net.outputSources && net2.inputs == net.inputs
    requires n <= |net.outputSources|
    ensures OutputEdges(net2, idx, n) == OutputEdges(net, idx, n)
    decreases n
  {
    if n > 0 {
      OutputEdgesSame(net, net2, idx, n - 1);
    }
  }

  lemma PermutedIds(net: Net, ids: seq<nat>)
    requires WellFormed(net)
    requires multiset(ids) == multiset(net.ids)
    ensures WellFormed(net.(ids := ids))
    ensures SortedIds(net.(ids := ids)) == SortedIds(net)
  {
    DistinctPermutation(net.ids, ids);
    forall id ensures id in ids <==> id in net.ids {
      assert id in ids <==> id in multiset(ids);
      assert id in net.ids <==> id in multiset(net.ids);
    }
    NatLeqOrder();
    Sorting.SortByPermutationInvariant(ids, net.ids, NatLeq);
  }

  /** The graph does not depend on the order in which the net lists its
      units: sorting the ids makes the output deterministic (graph.rs:78-97). */
  lemma IdOrderIrrelevant(net: Net, ids: seq<nat>)
    requires WellFormed(net)
    requires multiset(ids) == multiset(net.ids)
    ensures WellFormed(net.(ids := ids))
    ensures Nodes(net.(ids := ids)) == Nodes(net)
    ensures Edges(net.(ids := ids)) == Edges(net)
  {
    PermutedIds(net, ids);
    PermutedNodes(net, net.(ids := ids));
    PermutedEdges(net, net.(ids := ids));
  }

  lemma PermutedNodes(net: Net, net2: Net)
    requires WellFormed(net) && WellFormed(net2)
    requires net2 == net.(ids := net2.ids)
    requires SortedIds(net2) == SortedIds(net)
    ensures Nodes(net2) == Nodes(net)
  {
    var s := SortedIds(net);
    SortedIdsFacts(net);
    assert UnitNodes(net2, s) == UnitNodes(net, s);
  }

  lemma PermutedEdges(net: Net, net2: Net)
    requires WellFormed(net) && WellFormed(net2)
    requires net2 == net.(ids := net2.ids)
    requires SortedIds(net2) == SortedIds(net)
    ensures Edges(net2) == Edges(net)
  {
    PermutedRawEdges(net, net2);
  }

  lemma PermutedRawEdges(net: Net, net2: Net)
    requires WellFormed(net) && WellFormed(net2)
    requires net2 == net.(ids := net2.ids)
    requires SortedIds(net2) == SortedIds(net)
    ensures RawEdges(net2) == RawEdges(net)
  {
    var s := SortedIds(net);
    var idx := IdMap(net);
    assert Base(net2) == Base(net);
    assert IdMap(net2) == idx;
    UnitEdgesSame(net, net2, idx, s, |s|);
    OutputEdgesSame(net, net2, idx, net.outputs);
  }
}
