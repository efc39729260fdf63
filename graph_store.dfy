/** The lineage graph database as the services use it: `DataAsset` nodes keyed by
    their `id` property, each with a property map, and `FLOWS_TO` edges between
    node ids. A Cypher `MERGE` is a find-or-create, so every write here is an
    upsert into a map or a set. */
module GraphStore {
  import opened Wrappers

  type Props = map<string, string>

  datatype Graph = Graph(nodes: map<string, Props>, edges: set<(string, string)>)

  /** The graph contains nodes for both ends of every edge. */
  predicate Closed(g: Graph) {
    forall e :: e in g.edges ==> e.0 in g.nodes && e.1 in g.nodes
  }

  /** `MERGE (n:DataAsset {id: $id})`: the node is found, or created without properties. */
  function MergeNode(g: Graph, id: string): (r: Graph)
    ensures id in r.nodes
    ensures r.nodes.Keys == g.nodes.Keys + {id}
    ensures forall k :: k in g.nodes ==> r.nodes[k] == g.nodes[k]
    ensures id !in g.nodes ==> r.nodes[id] == map[]
    ensures r.edges == g.edges
  {
    if id in g.nodes then g else g.(nodes := g.nodes[id := map[]])
  }

  /** `MERGE (u {id: $upstream}) MERGE (d {id: $downstream}) MERGE (u)-[:FLOWS_TO]->(d)`. */
  function MergeFlow(g: Graph, u: string, d: string): (r: Graph)
    ensures r.nodes.Keys == g.nodes.Keys + {u, d}
    ensures forall k :: k in g.nodes ==> r.nodes[k] == g.nodes[k]
    ensures forall k :: k in r.nodes && k !in g.nodes ==> r.nodes[k] == map[]
    ensures r.edges == g.edges + {(u, d)}
  {
    var g1 := MergeNode(MergeNode(g, u), d);
    g1.(edges := g1.edges + {(u, d)})
  }

  /** The flows ups[0] -> d, ups[1] -> d, ... merged one after the other. */
  function MergeFlows(g: Graph, ups: seq<string>, d: string): Graph
    decreases |ups|
  {
    if ups == [] then g else MergeFlow(MergeFlows(g, ups[..|ups| - 1], d), ups[|ups| - 1], d)
  }

  /** Merging a list of flows into d adds exactly the nodes of the list and d. */
  lemma {:induction false} MergeFlowsNodes(g: Graph, ups: seq<string>, d: string)
    ensures MergeFlows(g, ups, d).nodes.Keys
            == g.nodes.Keys + (set u | u in ups) + (if ups == [] then {} else {d})
    decreases |ups|
  {
    if ups != [] {
      var n := |ups| - 1;
      var p := ups[..n];
      var x := ups[n];
      MergeFlowsNodes(g, p, d);
      assert ups == p + [x];
      ElementsSnoc(p, x);
      var r0 := MergeFlows(g, p, d);
      var keys0 := r0.nodes.Keys;
      assert MergeFlows(g, ups, d).nodes.Keys == keys0 + {x, d};
      var elems := set u | u in p;
      assert keys0 == g.nodes.Keys + elems + (if p == [] then {} else {d});
      assert (set u | u in ups) == elems + {x};
      AddFlowKeys(g.nodes.Keys, elems, x, d, p == []);
    }
  }

  lemma AddFlowKeys(keys: set<string>, elems: set<string>, x: string, d: string, none: bool)
    ensures (keys + elems + (if none then {} else {d})) + {x, d} == keys + (elems + {x}) + {d}
  {
  }

  lemma ElementsSnoc(p: seq<string>, x: string)
    ensures (set u | u in p + [x]) == (set u | u in p) + {x}
  {
  }

  /** Merging flows keeps the properties of existing nodes and creates new ones empty. */
  lemma {:induction false} MergeFlowsProps(g: Graph, ups: seq<string>, d: string)
    ensures g.nodes.Keys <= MergeFlows(g, ups, d).nodes.Keys
    ensures forall k :: k in g.nodes ==> MergeFlows(g, ups, d).nodes[k] == g.nodes[k]
    ensures forall k :: k in MergeFlows(g, ups, d).nodes && k !in g.nodes ==>
              MergeFlows(g, ups, d).nodes[k] == map[]
    decreases |ups|
  {
    if ups != [] {
      var n := |ups| - 1;
      var r0 := MergeFlows(g, ups[..n], d);
      MergeFlowsProps(g, ups[..n], d);
      assert MergeFlows(g, ups, d) == MergeFlow(r0, ups[n], d);
    }
  }

  /** Merging a list of flows into d adds exactly the edges u -> d. */
  lemma {:induction false} MergeFlowsEdges(g: Graph, ups: seq<string>, d: string)
    ensures MergeFlows(g, ups, d).edges == g.edges + (set u | u in ups :: (u, d))
    decreases |ups|
  {
    if ups != [] {
      var n := |ups| - 1;
      var p := ups[..n];
      MergeFlowsEdges(g, p, d);
      assert ups == p + [ups[n]];
      assert (set u | u in ups :: (u, d)) == (set u | u in p :: (u, d)) + {(ups[n], d)};
    }
  }

  /** Merging flows that are all present already changes nothing. */
  lemma {:induction false} MergeFlowsPresent(g: Graph, ups: seq<string>, d: string)
    requires forall u :: u in ups ==> u in g.nodes && d in g.nodes && (u, d) in g.edges
    ensures MergeFlows(g, ups, d) == g
    decreases |ups|
  {
    if ups != [] {
      var n := |ups| - 1;
      MergeFlowsPresent(g, ups[..n], d);
      assert ups[n] in ups;
    }
  }

  /** MERGE is idempotent: repeating the same writes adds nothing further. */
  lemma MergeFlowsIdempotent(g: Graph, ups: seq<string>, d: string)
    ensures MergeFlows(MergeFlows(g, ups, d), ups, d) == MergeFlows(g, ups, d)
  {
    MergedFlowsPresent(g, ups, d);
    MergeFlowsPresent(MergeFlows(g, ups, d), ups, d);
  }

  /** Merging xs and then ys is merging their concatenation. */
  lemma {:induction false} MergeFlowsAppend(g: Graph, xs: seq<string>, ys: seq<string>, d: string)
    ensures MergeFlows(g, xs + ys, d) == MergeFlows(MergeFlows(g, xs, d), ys, d)
    decreases |ys|
  {
    if ys == [] {
      assert xs + ys == xs;
    } else {
      var n := |ys| - 1;
      var zs := xs + ys;
      LastOfAppend(xs, ys);
      calc {
        MergeFlows(g, zs, d);
        MergeFlow(MergeFlows(g, xs + ys[..n], d), ys[n], d);
        { MergeFlowsAppend(g, xs, ys[..n], d); }
        MergeFlow(MergeFlows(MergeFlows(g, xs, d), ys[..n], d), ys[n], d);
      }
    }
  }

  lemma LastOfAppend(xs: seq<string>, ys: seq<string>)
    requires ys != []
    ensures (xs + ys)[..|xs + ys| - 1] == xs + ys[..|ys| - 1]
    ensures (xs + ys)[|xs + ys| - 1] == ys[|ys| - 1]
  {
  }

  lemma ShorterPrefix(ups: seq<string>, k1: nat, k2: nat)
    requires k2 <= k1 <= |ups|
    ensures forall u :: u in ups[..k2] ==> u in ups[..k1]
  {
    assert ups[..k2] == ups[..k1][..k2];
  }

  lemma LongerPrefix(ups: seq<string>, k1: nat, k2: nat)
    requires k1 <= k2 <= |ups|
    ensures ups[..k2] == ups[..k1] + ups[k1..k2]
  {
  }

  /** Every flow of ups is present after ups has been merged. */
  lemma MergedFlowsPresent(g: Graph, ups: seq<string>, d: string)
    ensures var r := MergeFlows(g, ups, d);
      forall u :: u in ups ==> u in r.nodes && d in r.nodes && (u, d) in r.edges
  {
    var r := MergeFlows(g, ups, d);
    MergeFlowsNodes(g, ups, d);
    MergeFlowsEdges(g, ups, d);
    forall u | u in ups ensures u in r.nodes && d in r.nodes && (u, d) in r.edges {
      assert u in (set x | x in ups);
      assert (u, d) in (set x | x in ups :: (x, d));
    }
  }

  /** Merging a prefix of ups after another prefix of it is merging the longer
      prefix once. */
  lemma MergeFlowsPrefixes(g: Graph, ups: seq<string>, d: string, k1: nat, k2: nat)
    requires k1 <= |ups| && k2 <= |ups|
    ensures MergeFlows(MergeFlows(g, ups[..k1], d), ups[..k2], d)
            == MergeFlows(g, ups[..if k1 >= k2 then k1 else k2], d)
  {
    var r1 := MergeFlows(g, ups[..k1], d);
    MergedFlowsPresent(g, ups[..k1], d);
    if k2 <= k1 {
      ShorterPrefix(ups, k1, k2);
      MergeFlowsPresent(r1, ups[..k2], d);
    } else {
      var more := ups[k1..k2];
      LongerPrefix(ups, k1, k2);
      MergeFlowsAppend(r1, ups[..k1], more, d);
      MergeFlowsPresent(r1, ups[..k1], d);
      MergeFlowsAppend(g, ups[..k1], more, d);
    }
  }

  /** Merging flows keeps the graph closed: no edge ever dangles. */
  lemma MergeFlowsClosed(g: Graph, ups: seq<string>, d: string)
    requires Closed(g)
    ensures Closed(MergeFlows(g, ups, d))
  {
    var r := MergeFlows(g, ups, d);
    MergeFlowsNodes(g, ups, d);
    MergeFlowsEdges(g, ups, d);
    forall e | e in r.edges ensures e.0 in r.nodes && e.1 in r.nodes {
      if e !in g.edges {
        var u :| u in ups && e == (u, d);
        assert u in (set x | x in ups);
      }
    }
  }

  /** `SET n.key = $v`: a null value removes the property. */
  function SetProp(p: Props, key: string, v: Option<string>): (r: Props)
    ensures v.Some? ==> key in r && r[key] == v.value
    ensures v.None? ==> key !in r
    ensures forall k :: k != key ==> (k in r <==> k in p) && (k in r ==> r[k] == p[k])
  {
    match v
    case Some(x) => p[key := x]
    case None => p - {key}
  }

  /** The assignments of one SET clause, applied left to right. */
  function SetAll(p: Props, assignments: seq<(string, Option<string>)>): Props
    decreases |assignments|
  {
    if assignments == [] then p
    else SetAll(SetProp(p, assignments[0].0, assignments[0].1), assignments[1..])
  }

  /** A key that no assignment names keeps its value. */
  lemma {:induction false} SetAllUnassigned(p: Props, assignments: seq<(string, Option<string>)>, key: string)
    requires forall i :: 0 <= i < |assignments| ==> assignments[i].0 != key
    ensures var r := SetAll(p, assignments);
      (key in r <==> key in p) && (key in r ==> r[key] == p[key])
    decreases |assignments|
  {
    if assignments != [] {
      assert assignments[0].0 != key;
      forall i | 0 <= i < |assignments[1..]| ensures assignments[1..][i].0 != key {
        assert assignments[1..][i] == assignments[i + 1];
      }
      SetAllUnassigned(SetProp(p, assignments[0].0, assignments[0].1), assignments[1..], key);
    }
  }

  /** The last assignment to a key decides it: a value sets it, null removes it. */
  lemma {:induction false} SetAllLast(p: Props, assignments: seq<(string, Option<string>)>, i: nat)
    requires i < |assignments|
    requires forall j :: i < j < |assignments| ==> assignments[j].0 != assignments[i].0
    ensures var r := SetAll(p, assignments); var (key, v) := assignments[i];
      (key in r <==> v.Some?) && (key in r ==> r[key] == v.value)
    decreases |assignments|
  {
    var key := assignments[i].0;
    var p' := SetProp(p, assignments[0].0, assignments[0].1);
    var rest := assignments[1..];
    if i == 0 {
      forall j | 0 <= j < |rest| ensures rest[j].0 != key {
        assert rest[j] == assignments[j + 1];
      }
      SetAllUnassigned(p', rest, key);
    } else {
      assert rest[i - 1] == assignments[i];
      forall j | i - 1 < j < |rest| ensures rest[j].0 != rest[i - 1].0 {
        assert rest[j] == assignments[j + 1];
      }
      SetAllLast(p', rest, i - 1);
    }
  }

  /** MERGE on id followed by SET assignments. */
  function MergeSet(g: Graph, id: string, assignments: seq<(string, Option<string>)>): (r: Graph)
    ensures id in r.nodes
    ensures r.nodes.Keys == g.nodes.Keys + {id}
    ensures forall k :: k in g.nodes && k != id ==> r.nodes[k] == g.nodes[k]
    ensures r.edges == g.edges
  {
    var base := if id in g.nodes then g.nodes[id] else map[];
    g.(nodes := g.nodes[id := SetAll(base, assignments)])
  }

  /** The graph database the services share. */
  class Store {
    var nodes: map<string, Props>
    var edges: set<(string, string)>

    function State(): Graph
      reads this
    {
      Graph(nodes, edges)
    }

    constructor(g: Graph)
      ensures State() == g
    {
      nodes := g.nodes;
      edges := g.edges;
    }

    /** One run of the three-MERGE statement of the lineage route. */
    method MergeFlowEdge(u: string, d: string)
      modifies this
      ensures State() == MergeFlow(old(State()), u, d)
    {
      if u !in nodes {
        nodes := nodes[u := map[]];
      }
      if d !in nodes {
        nodes := nodes[d := map[]];
      }
      edges := edges + {(u, d)};
    }

    /** `MERGE (a {id: $id}) SET a.k1 = $v1, ...`: finds or creates the node, then
        applies the assignments in order. */
    method MergeAndSet(id: string, assignments: seq<(string, Option<string>)>)
      modifies this
      ensures State() == MergeSet(old(State()), id, assignments)
    {
      var base := if id in nodes then nodes[id] else map[];
      nodes := nodes[id := SetAll(base, assignments)];
    }
  }
}
