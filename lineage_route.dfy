/** The `POST /lineage/parse` handler of the lineage API
    (services/lineage-api/src/routes/lineage.ts): it validates the body, extracts
    the upstream tables of the SQL, and, when asked to persist and given a
    downstream asset, merges one `FLOWS_TO` edge per upstream into the graph. A
    failing MERGE statement is not caught: the request fails and the statements
    completed before it stay committed. */
module LineageRoute {
  import opened Wrappers
  import opened LineageParser
  import opened GraphStore

  /** The request body; `None` for an absent field. `persist` is the truthiness
      of the `persist` field. */
  datatype ParseBody = ParseBody(sql: Option<string>, downstream: Option<string>, persist: bool)

  /** `Failed` is the rejection of the handler when a MERGE statement fails: the
      exception leaves the `try`/`finally` uncaught and Fastify answers with an error. */
  datatype Reply = BadRequest(error: string) | Parsed(upstreamAssets: seq<string>) | Failed

  /** JavaScript truthiness of an optional string: present and non-empty. */
  predicate Truthy(s: Option<string>) {
    s.Some? && s.value != ""
  }

  /** The body carries SQL to parse (`body?.sql` is truthy). */
  predicate HasSql(body: Option<ParseBody>) {
    body.Some? && Truthy(body.value.sql)
  }

  /** The route writes to the graph (`body.persist && body.downstream`). */
  predicate Persists(body: Option<ParseBody>) {
    HasSql(body) && body.value.persist && Truthy(body.value.downstream)
  }

  /** The upstreams whose MERGE statements complete when the database accepts
      `accepting` statements before one fails: a failed statement writes nothing. */
  function Written(ups: seq<string>, accepting: nat): seq<string> {
    if accepting < |ups| then ups[..accepting] else ups
  }

  /** The reply sent for a body when the database completes `accepting` statements. */
  function ReplyFor(body: Option<ParseBody>, accepting: nat): Reply {
    if !HasSql(body) then BadRequest("sql required")
    else if Persists(body) && accepting < |UpstreamAssets(body.value.sql.value)| then Failed
    else Parsed(UpstreamAssets(body.value.sql.value))
  }

  /** The graph after the route has handled a body. */
  function GraphAfter(g: Graph, body: Option<ParseBody>, accepting: nat): Graph {
    if Persists(body) then
      MergeFlows(g, Written(UpstreamAssets(body.value.sql.value), accepting), body.value.downstream.value)
    else g
  }

  method HandleParse(store: Store, body: Option<ParseBody>, accepting: nat) returns (reply: Reply)
    modifies store
    ensures reply == ReplyFor(body, accepting)
    ensures store.State() == GraphAfter(old(store.State()), body, accepting)
  {
    if body.None? || body.value.sql.None? || body.value.sql.value == "" {
      return BadRequest("sql required");
    }
    var result := ParseSqlToLineage(body.value.sql.value);
    if body.value.persist && body.value.downstream.Some? && body.value.downstream.value != "" {
      var ok := PersistFlows(store, result.upstreamAssets, body.value.downstream.value, accepting);
      if !ok {
        return Failed;
      }
    }
    return Parsed(result.upstreamAssets);
  }

  /** The loop issuing one MERGE statement per upstream; `ok` is false when a
      statement failed, which ends the loop. */
  method PersistFlows(store: Store, ups: seq<string>, downstream: string, accepting: nat) returns (ok: bool)
    modifies store
    ensures ok == (accepting >= |ups|)
    ensures store.State() == MergeFlows(old(store.State()), Written(ups, accepting), downstream)
  {
    ghost var g0 := store.State();
    for i := 0 to |ups|
      invariant i <= accepting
      invariant store.State() == MergeFlows(g0, ups[..i], downstream)
    {
      if i == accepting {
        return false;
      }
      assert ups[..i + 1][..i] == ups[..i];
      store.MergeFlowEdge(ups[i], downstream);
    }
    assert ups[..|ups|] == ups;
    return true;
  }

  // ---------------------------------------------------------------------------
  // Properties
  // ---------------------------------------------------------------------------

  /** A missing or empty `sql` is answered 400 and writes nothing. */
  lemma MissingSqlRejected(g: Graph, body: Option<ParseBody>, accepting: nat)
    requires body.None? || body.value.sql.None? || body.value.sql == Some("")
    ensures ReplyFor(body, accepting) == BadRequest("sql required")
    ensures GraphAfter(g, body, accepting) == g
  {
  }

  /** With SQL the reply is the extractor's result exactly when no MERGE failed, and
      a failed MERGE is the only other outcome; a request that does not persist
      always gets the result. */
  lemma ReplyIsParse(sql: string, downstream: Option<string>, persist: bool, accepting: nat)
    requires sql != ""
    ensures var r := ReplyFor(Some(ParseBody(Some(sql), downstream, persist)), accepting);
      && (r == Parsed(UpstreamAssets(sql))
          <==> !(persist && Truthy(downstream)) || accepting >= |UpstreamAssets(sql)|)
      && (r != Parsed(UpstreamAssets(sql)) ==> r == Failed)
  {
  }

  /** Without a truthy `persist` and a non-empty `downstream`, the graph is untouched. */
  lemma NoPersistNoWrites(g: Graph, body: Option<ParseBody>, accepting: nat)
    requires body.Some? && (!body.value.persist || !Truthy(body.value.downstream))
    ensures GraphAfter(g, body, accepting) == g
  {
  }

  /** After a persisting request every upstream whose MERGE completed has a node, so
      has the downstream, and the edge u -> downstream exists; the only new edges
      point at the downstream from those upstreams, and nodes that existed keep
      their properties. When every statement completes, that is every upstream. */
  lemma PersistEffect(g: Graph, body: Option<ParseBody>, accepting: nat)
    requires Persists(body)
    ensures var r := GraphAfter(g, body, accepting);
      var ups := UpstreamAssets(body.value.sql.value);
      var w := Written(ups, accepting);
      var d := body.value.downstream.value;
      && (accepting >= |ups| ==> w == ups)
      && (forall u :: u in w ==> u in r.nodes && d in r.nodes && (u, d) in r.edges)
      && g.edges <= r.edges
      && (forall e :: e in r.edges && e !in g.edges ==> e.1 == d && e.0 in w)
      && (forall k :: k in g.nodes ==> k in r.nodes && r.nodes[k] == g.nodes[k])
  {
    var ups := UpstreamAssets(body.value.sql.value);
    var w := Written(ups, accepting);
    var d := body.value.downstream.value;
    MergedFlowsPresent(g, w, d);
    MergeFlowsProps(g, w, d);
    MergeFlowsEdges(g, w, d);
  }

  /** A failing MERGE ends the request with an error after the flows of the
      upstreams before it were merged; the failing one and those after it are not. */
  lemma WriteFailureKeepsEarlierFlows(g: Graph, body: Option<ParseBody>, accepting: nat)
    requires Persists(body) && accepting < |UpstreamAssets(body.value.sql.value)|
    ensures var ups := UpstreamAssets(body.value.sql.value);
      var d := body.value.downstream.value;
      var r := GraphAfter(g, body, accepting);
      && ReplyFor(body, accepting) == Failed
      && r == MergeFlows(g, ups[..accepting], d)
      && (forall i :: 0 <= i < accepting ==> (ups[i], d) in r.edges)
      && ((ups[accepting], d) in r.edges <==> (ups[accepting], d) in g.edges)
  {
    var ups := UpstreamAssets(body.value.sql.value);
    var d := body.value.downstream.value;
    var w := ups[..accepting];
    assert Written(ups, accepting) == w;
    MergedFlowsPresent(g, w, d);
    MergeFlowsEdges(g, w, d);
    forall i | 0 <= i < accepting ensures (ups[i], d) in MergeFlows(g, w, d).edges {
      assert w[i] == ups[i];
    }
    UpstreamNoDuplicates(body.value.sql.value);
    forall i | 0 <= i < accepting ensures w[i] != ups[accepting] {
      assert w[i] == ups[i];
    }
    assert ups[accepting] !in w;
  }

  /** Repeating a request leaves the graph as one request with the larger number
      of completed statements: a retry after a failure finishes the flows, and
      repeating a completed request changes nothing. */
  lemma RepeatIsIdempotent(g: Graph, body: Option<ParseBody>, first: nat, second: nat)
    ensures GraphAfter(GraphAfter(g, body, first), body, second)
            == GraphAfter(g, body, if first >= second then first else second)
  {
    if Persists(body) {
      RepeatWritten(g, UpstreamAssets(body.value.sql.value), body.value.downstream.value, first, second);
    }
  }

  lemma RepeatWritten(g: Graph, ups: seq<string>, d: string, first: nat, second: nat)
    ensures MergeFlows(MergeFlows(g, Written(ups, first), d), Written(ups, second), d)
            == MergeFlows(g, Written(ups, if first >= second then first else second), d)
  {
    var k1 := if first < |ups| then first else |ups|;
    var k2 := if second < |ups| then second else |ups|;
    assert ups[..|ups|] == ups;
    assert Written(ups, first) == ups[..k1] && Written(ups, second) == ups[..k2];
    assert Written(ups, if first >= second then first else second) == ups[..if k1 >= k2 then k1 else k2];
    MergeFlowsPrefixes(g, ups, d, k1, k2);
  }

  /** The route never leaves an edge without its end nodes, even when a MERGE fails. */
  lemma RouteKeepsGraphClosed(g: Graph, body: Option<ParseBody>, accepting: nat)
    requires Closed(g)
    ensures Closed(GraphAfter(g, body, accepting))
  {
    if Persists(body) {
      MergeFlowsClosed(g, Written(UpstreamAssets(body.value.sql.value), accepting), body.value.downstream.value);
    }
  }
}
