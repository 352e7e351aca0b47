/** The wiring of a fundsp `Net` as a graph (src/graph.rs, `build_petgraph`):
    one node per global input, one per global output, one per unit in
    ascending id order, and one edge per connected unit input or global
    output, sorted by a numeric key so that the rendering is deterministic.

    The net is taken as data: its global input and output counts, its unit
    ids in the (hash) order `Net::ids` yields them, what each unit displays
    and where each of its inputs reads from, and where each global output
    reads from. Node indices are positions in the node sequence, as
    petgraph's `add_node` hands them out. */
module Graph {
  import opened Wrappers
  import Text
  import Sorting

  const USIZE_MAX: nat := 0xFFFF_FFFF_FFFF_FFFF

  /** Where a unit input or a global output reads from (fundsp's `Source`). */
  datatype Source = Local(id: nat, port: nat) | Global(port: nat) | Zero

  /** What the model needs of one unit: its `display()` text and the source of
      each of its inputs (`inputs_in` is the length of `sources`). */
  datatype UnitInfo = UnitInfo(display: string, sources: seq<Source>)

  datatype Net = Net(
    inputs: nat,
    outputs: nat,
    ids: seq<nat>,
    units: map<nat, UnitInfo>,
    outputSources: seq<Source>)

  predicate Distinct(s: seq<nat>) {
    forall i, j :: 0 <= i < j < |s| ==> s[i] != s[j]
  }

  /** What fundsp guarantees of a net: each unit id once, every id listed has
      a unit, and one source per global output. */
  predicate WellFormed(net: Net) {
    && Distinct(net.ids)
    && (forall id :: id in net.units ==> id in net.ids)
    && (forall id :: id in net.ids ==> id in net.units)
    && |net.outputSources| == net.outputs
  }

  datatype NodeKind = GlobalIn | GlobalOut | UnitNode

  datatype DspNode = DspNode(kind: NodeKind, text: string, unitId: Option<nat>, port: Option<nat>)

  /** An edge `src -> dst` between node indices with the port numbers it is
      labelled with. */
  datatype DspEdge = DspEdge(src: nat, dst: nat, srcPort: Option<nat>, dstPort: Option<nat>)

  // ---------------------------------------------------------------------
  // Unit order

  function NatLeq(a: nat, b: nat): bool { a <= b }

  /** The unit ids sorted by their numeric value (graph.rs:79-97). */
  function SortedIds(net: Net): (r: seq<nat>)
    ensures |r| == |net.ids|
    ensures forall id :: id in r <==> id in net.ids
  {
    Sorting.SortByMembersAll(net.ids, NatLeq);
    Sorting.SortBy(net.ids, NatLeq)
  }

  /** Index of the first unit node: the global nodes come first. */
  function Base(net: Net): nat {
    net.inputs + net.outputs
  }

  lemma NatLeqOrder()
    ensures Sorting.Total(NatLeq) && Sorting.Transitive(NatLeq) && Sorting.Antisymmetric(NatLeq)
  {
  }

  lemma {:induction false} DistinctCount(s: seq<nat>, x: nat)
    requires Distinct(s)
    ensures multiset(s)[x] <= 1
    decreases |s|
  {
    if s != [] {
      var t := s[..|s| - 1];
      assert s == t + [s[|s| - 1]];
      DistinctCount(t, x);
      assert s[|s| - 1] !in t by {
        forall j | 0 <= j < |t| ensures t[j] != s[|s| - 1] {
          assert t[j] == s[j];
        }
      }
    }
  }

  lemma PairCount(t: seq<nat>, i: nat, j: nat)
    requires i < j < |t|
    ensures t[i] == t[j] ==> multiset(t)[t[j]] >= 2
  {
    var u, v := t[..j], t[j..];
    assert t == u + v;
    assert u[i] == t[i] && u[i] in multiset(u);
    assert v[0] == t[j] && v[0] in multiset(v);
  }

  lemma DistinctPermutation(s: seq<nat>, t: seq<nat>)
    requires Distinct(s) && multiset(s) == multiset(t)
    ensures Distinct(t)
  {
    forall i, j | 0 <= i < j < |t| ensures t[i] != t[j] {
      DistinctCount(s, t[j]);
      PairCount(t, i, j);
    }
  }

  /** The sorted ids are the unit ids, each once, strictly ascending. */
  lemma SortedIdsFacts(net: Net)
    requires WellFormed(net)
    ensures Distinct(SortedIds(net))
    ensures forall id :: id in SortedIds(net) <==> id in net.units
    ensures forall i, j :: 0 <= i < j < |SortedIds(net)| ==> SortedIds(net)[i] < SortedIds(net)[j]
  {
    var s := SortedIds(net);
    DistinctPermutation(net.ids, s);
    forall id ensures id in s <==> id in net.units {
      Sorting.SortByMembers(net.ids, NatLeq, id);
    }
    NatLeqOrder();
    Sorting.SortBySorted(net.ids, NatLeq);
    forall i, j | 0 <= i < j < |s| ensures s[i] < s[j] {
      Sorting.SortedPairs(s, NatLeq, i, j);
    }
  }

  // ---------------------------------------------------------------------
  // Node indices of units

  /** The id-to-node-index map `id_to_idx` after the units of `s` have been
      added, the first at index `base`. */
  function IdIndex(s: seq<nat>, base: nat): (m: map<nat, nat>)
    ensures forall id :: id in m <==> id in s
  {
    if s == [] then map[]
    else
      assert s == s[..|s| - 1] + [s[|s| - 1]];
      IdIndex(s[..|s| - 1], base)[s[|s| - 1] := base + |s| - 1]
  }

  lemma {:induction false} IdIndexAt(s: seq<nat>, base: nat, j: nat)
    requires Distinct(s) && j < |s|
    ensures s[j] in IdIndex(s, base) && IdIndex(s, base)[s[j]] == base + j
    decreases |s|
  {
    var t := s[..|s| - 1];
    if j < |s| - 1 {
      assert t[j] == s[j];
      IdIndexAt(t, base, j);
    }
  }

  function IdMap(net: Net): map<nat, nat> {
    IdIndex(SortedIds(net), Base(net))
  }

  /** The node index of unit `id`. */
  function UnitIndex(net: Net, id: nat): nat
    requires WellFormed(net) && id in net.units
  {
    SortedIdsFacts(net);
    IdMap(net)[id]
  }

  // ---------------------------------------------------------------------
  // Nodes (graph.rs:55-120)

  function InNode(k: nat): DspNode {
    DspNode(GlobalIn, "IN[" + Text.NatToString(k) + "]", None, Some(k))
  }

  function OutNode(k: nat): DspNode {
    DspNode(GlobalOut, "OUT[" + Text.NatToString(k) + "]", None, Some(k))
  }

  function UnitNodeOf(net: Net, id: nat): DspNode
    requires id in net.units
  {
    DspNode(UnitNode, net.units[id].display, Some(id), None)
  }

  function UnitNodes(net: Net, s: seq<nat>): seq<DspNode>
    requires forall id :: id in s ==> id in net.units
  {
    seq(|s|, k requires 0 <= k < |s| => UnitNodeOf(net, s[k]))
  }

  function Nodes(net: Net): seq<DspNode>
    requires WellFormed(net)
  {
    SortedIdsFacts(net);
    seq(net.inputs, k requires 0 <= k => InNode(k))
    + seq(net.outputs, k requires 0 <= k => OutNode(k))
    + UnitNodes(net, SortedIds(net))
  }

  // ---------------------------------------------------------------------
  // Edges (graph.rs:123-211), as the loops build them

  function Opt(o: Option<DspEdge>): seq<DspEdge> {
    if o.Some? then [o.value] else []
  }

  /** The edge into input `i` of unit `id`, given the id map built so far. */
  function InputEdge(net: Net, idx: map<nat, nat>, id: nat, i: nat): Option<DspEdge>
    requires id in net.units && i < |net.units[id].sources|
  {
    match net.units[id].sources[i]
    case Local(src, p) =>
      if src in idx && id in idx then Some(DspEdge(idx[src], idx[id], Some(p), Some(i))) else None
    case Global(g) =>
      if g < net.inputs && id in idx then Some(DspEdge(g, idx[id], None, Some(i))) else None
    case Zero => None
  }

  function InputEdgesOf(net: Net, idx: map<nat, nat>, id: nat, n: nat): seq<DspEdge>
    requires id in net.units && n <= |net.units[id].sources|
  {
    if n == 0 then [] else InputEdgesOf(net, idx, id, n - 1) + Opt(InputEdge(net, idx, id, n - 1))
  }

  function UnitEdges(net: Net, idx: map<nat, nat>, s: seq<nat>, k: nat): seq<DspEdge>
    requires forall id :: id in s ==> id in net.units
    requires k <= |s|
  {
    if k == 0 then []
    else
      UnitEdges(net, idx, s, k - 1)
      + InputEdgesOf(net, idx, s[k - 1], |net.units[s[k - 1]].sources|)
  }

  /** The edge into global output `o`. */
  function OutputEdge(net: Net, idx: map<nat, nat>, o: nat): Option<DspEdge>
    requires o < |net.outputSources|
  {
    match net.outputSources[o]
    case Local(src, p) =>
      if src in idx then Some(DspEdge(idx[src], net.inputs + o, Some(p), None)) else None
    case Global(g) =>
      if g < net.inputs then Some(DspEdge(g, net.inputs + o, None, None)) else None
    case Zero => None
  }

  function OutputEdges(net: Net, idx: map<nat, nat>, n: nat): seq<DspEdge>
    requires n <= |net.outputSources|
  {
    if n == 0 then [] else OutputEdges(net, idx, n - 1) + Opt(OutputEdge(net, idx, n - 1))
  }

  function RawEdges(net: Net): seq<DspEdge>
    requires WellFormed(net)
  {
    SortedIdsFacts(net);
    UnitEdges(net, IdMap(net), SortedIds(net), |SortedIds(net)|)
    + OutputEdges(net, IdMap(net), net.outputs)
  }

  /** The sort key of graph.rs:204-211: a missing port sorts last. */
  function EdgeKey(e: DspEdge): (nat, nat, nat, nat) {
    (e.src, e.dst, e.srcPort.GetOr(USIZE_MAX), e.dstPort.GetOr(USIZE_MAX))
  }

  /** Rust's tuple order on the keys: lexicographic. */
  function EdgeLeq(a: DspEdge, b: DspEdge): bool {
    var (ka, kb) := (EdgeKey(a), EdgeKey(b));
    ka.0 < kb.0 || (ka.0 == kb.0 && (ka.1 < kb.1 || (ka.1 == kb.1 &&
      (ka.2 < kb.2 || (ka.2 == kb.2 && ka.3 <= kb.3)))))
  }

  function Edges(net: Net): seq<DspEdge>
    requires WellFormed(net)
  {
    Sorting.SortBy(RawEdges(net), EdgeLeq)
  }

  // ---------------------------------------------------------------------
  // The construction

  /** The global nodes and their indices (graph.rs:54-76). */
  method AddGlobalNodes(net: Net) returns (nodes: seq<DspNode>, globalIn: seq<nat>, globalOut: seq<nat>)
    ensures nodes == seq(net.inputs, k requires 0 <= k => InNode(k))
                     + seq(net.outputs, k requires 0 <= k => OutNode(k))
    ensures globalIn == seq(net.inputs, k requires 0 <= k => k)
    ensures globalOut == seq(net.outputs, k requires 0 <= k => net.inputs + k)
  {
    nodes := [];
    globalIn := [];
    for p := 0 to net.inputs
      invariant nodes == seq(p, k requires 0 <= k => InNode(k))
      invariant globalIn == seq(p, k requires 0 <= k => k)
    {
      var idx := |nodes|;
      nodes := nodes + [DspNode(GlobalIn, "IN[" + Text.NatToString(p) + "]", None, Some(p))];
      globalIn := globalIn + [idx];
    }
    globalOut := [];
    ghost var ins := nodes;
    for p := 0 to net.outputs
      invariant nodes == ins + seq(p, k requires 0 <= k => OutNode(k))
      invariant globalOut == seq(p, k requires 0 <= k => net.inputs + k)
    {
      var idx := |nodes|;
      nodes := nodes + [DspNode(GlobalOut, "OUT[" + Text.NatToString(p) + "]", None, Some(p))];
      globalOut := globalOut + [idx];
    }
  }

  /** The unit nodes, appended in the order of `ids` (graph.rs:99-120). */
  method AddUnitNodes(net: Net, ids: seq<nat>, globals: seq<DspNode>)
    returns (nodes: seq<DspNode>, idToIdx: map<nat, nat>)
    requires forall id :: id in ids ==> id in net.units
    ensures nodes == globals + UnitNodes(net, ids)
    ensures idToIdx == IdIndex(ids, |globals|)
  {
    var labels := UnitLabels(net, ids);
    nodes := globals;
    idToIdx := map[];
    for k := 0 to |ids|
      invariant nodes == globals + UnitNodes(net, ids[..k])
      invariant idToIdx == IdIndex(ids[..k], |globals|)
    {
      var id := ids[k];
      var text := if id in labels then labels[id] else "Unit NodeId(" + Text.NatToString(id) + ")";
      var idx := |nodes|;
      assert text == net.units[id].display;
      UnitNodesSnoc(net, ids, k);
      IdIndexSnoc(ids, k, |globals|);
      nodes := nodes + [DspNode(UnitNode, text, Some(id), None)];
      idToIdx := idToIdx[id := idx];
    }
    assert ids[..|ids|] == ids;
  }

  /** The display label of every unit, keyed by id (graph.rs:99-104). */
  method UnitLabels(net: Net, ids: seq<nat>) returns (labels: map<nat, string>)
    requires forall id :: id in ids ==> id in net.units
    ensures forall id :: id in labels <==> id in ids
    ensures forall id :: id in labels ==> labels[id] == net.units[id].display
  {
    labels := map[];
    for k := 0 to |ids|
      invariant forall id :: id in labels <==> id in ids[..k]
      invariant forall id :: id in labels ==> id in net.units && labels[id] == net.units[id].display
    {
      assert ids[..k + 1] == ids[..k] + [ids[k]];
      labels := labels[ids[k] := net.units[ids[k]].display];
    }
    assert ids[..|ids|] == ids;
  }

  lemma UnitNodesSnoc(net: Net, ids: seq<nat>, k: nat)
    requires k < |ids| && forall id :: id in ids ==> id in net.units
    ensures UnitNodes(net, ids[..k + 1]) == UnitNodes(net, ids[..k]) + [UnitNodeOf(net, ids[k])]
  {
    assert ids[..k + 1] == ids[..k] + [ids[k]];
  }

  lemma IdIndexSnoc(ids: seq<nat>, k: nat, base: nat)
    requires k < |ids|
    ensures IdIndex(ids[..k + 1], base) == IdIndex(ids[..k], base)[ids[k] := base + k]
  {
    assert ids[..k + 1][..k] == ids[..k];
  }

  /** The edges into unit inputs (graph.rs:125-163). */
  method CollectUnitEdges(net: Net, ids: seq<nat>, idToIdx: map<nat, nat>, globalIn: seq<nat>)
    returns (raw: seq<DspEdge>)
    requires forall id :: id in ids ==> id in net.units
    requires globalIn == seq(net.inputs, k requires 0 <= k => k)
    ensures raw == UnitEdges(net, idToIdx, ids, |ids|)
  {
    raw := [];
    for k := 0 to |ids|
      invariant raw == UnitEdges(net, idToIdx, ids, k)
    {
      var id := ids[k];
      var sources := net.units[id].sources;
      for i := 0 to |sources|
        invariant raw == UnitEdges(net, idToIdx, ids, k) + InputEdgesOf(net, idToIdx, id, i)
      {
        match sources[i]
        case Local(src, p) =>
          if src in idToIdx && id in idToIdx {
            raw := raw + [DspEdge(idToIdx[src], idToIdx[id], Some(p), Some(i))];
          }
        case Global(g) =>
          if g < |globalIn| && id in idToIdx {
            raw := raw + [DspEdge(globalIn[g], idToIdx[id], None, Some(i))];
          }
        case Zero =>
      }
    }
  }

  /** The edges into global outputs (graph.rs:165-201), appended to `raw0`. */
  method CollectOutputEdges(net: Net, idToIdx: map<nat, nat>, globalIn: seq<nat>, globalOut: seq<nat>,
                            raw0: seq<DspEdge>)
    returns (raw: seq<DspEdge>)
    requires |net.outputSources| == net.outputs
    requires globalIn == seq(net.inputs, k requires 0 <= k => k)
    requires globalOut == seq(net.outputs, k requires 0 <= k => net.inputs + k)
    ensures raw == raw0 + OutputEdges(net, idToIdx, net.outputs)
  {
    raw := raw0;
    for o := 0 to net.outputs
      invariant raw == raw0 + OutputEdges(net, idToIdx, o)
    {
      match net.outputSources[o]
      case Local(src, p) =>
        if src in idToIdx && o < |globalOut| {
          raw := raw + [DspEdge(idToIdx[src], globalOut[o], Some(p), None)];
        }
      case Global(g) =>
        if g < |globalIn| && o < |globalOut| {
          raw := raw + [DspEdge(globalIn[g], globalOut[o], None, None)];
        }
      case Zero =>
    }
  }

  /** `build_petgraph`: returns the graph's nodes and edges in insertion
      order, `id_to_idx`, and the node indices of the global inputs and
      outputs. */
  method BuildPetgraph(net: Net)
    returns (nodes: seq<DspNode>, edges: seq<DspEdge>, idToIdx: map<nat, nat>,
             globalIn: seq<nat>, globalOut: seq<nat>)
    requires WellFormed(net)
    ensures nodes == Nodes(net)
    ensures edges == Edges(net)
    ensures idToIdx == IdMap(net)
    ensures globalIn == seq(net.inputs, k requires 0 <= k => k)
    ensures globalOut == seq(net.outputs, k requires 0 <= k => net.inputs + k)
  {
    var globals;
    globals, globalIn, globalOut := AddGlobalNodes(net);
    var ids := Sorting.SortBy(net.ids, NatLeq);
    assert ids == SortedIds(net);
    SortedIdsFacts(net);
    assert |globals| == Base(net);
    nodes, idToIdx := AddUnitNodes(net, ids, globals);
    assert idToIdx == IdMap(net);
    assert nodes == Nodes(net);
    var raw := CollectUnitEdges(net, ids, idToIdx, globalIn);
    raw := CollectOutputEdges(net, idToIdx, globalIn, globalOut, raw);
    assert raw == RawEdges(net);
    var sorted := Sorting.SortBy(raw, EdgeLeq);
    edges := InsertEdges(sorted);
  }

  /** Adds the edges to the graph one by one, in the given order (graph.rs:212-215). */
  method InsertEdges(sorted: seq<DspEdge>) returns (edges: seq<DspEdge>)
    ensures edges == sorted
  {
    edges := [];
    for j := 0 to |sorted|
      invariant edges == sorted[..j]
    {
      edges := edges + [sorted[j]];
    }
    assert sorted[..|sorted|] == sorted;
  }
}
