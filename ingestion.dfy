/** The asset ingestion consumer (services/ingestion/src/index.ts). It is
    subscribed to `metadata.assets.v1` only; for each message with a value it
    appends one `INGEST_ASSET` row to the audit log and then find-or-creates the
    asset's graph node and overwrites its name, namespace and source system. */
module Ingestion {
  import opened Wrappers
  import opened GraphStore

  /** The only topic the consumer subscribes to. */
  const AssetTopic: string := "metadata.assets.v1"

  /** The parsed payload of an asset message: the fields the handler reads, each
      possibly absent from the JSON. */
  datatype AssetPayload = AssetPayload(
    assetId: Option<string>,
    name: Option<string>,
    namespace: Option<string>,
    sourceSystem: Option<string>)

  /** A consumed message; its key and topic are only logged. */
  datatype Message = Message(value: Option<AssetPayload>)

  /** A row of `audit_logs`. */
  datatype AuditRow = AuditRow(
    actorUserId: Option<string>,
    action: string,
    entityType: string,
    entityId: Option<string>,
    metadata: AssetPayload)

  /** The step at which handling a message failed. */
  datatype Stage = AuditInsert | GraphMerge

  datatype Outcome = Skipped | Ingested | Failed(stage: Stage)

  /** The audit log and the graph, the two stores the handler writes. */
  datatype Stores = Stores(audit: seq<AuditRow>, graph: Graph)

  /** The audit row written for a payload. */
  function IngestRow(p: AssetPayload): (row: AuditRow)
    ensures row.actorUserId.None? && row.action == "INGEST_ASSET" && row.entityType == "ASSET"
    ensures row.entityId == p.assetId && row.metadata == p
  {
    AuditRow(None, "INGEST_ASSET", "ASSET", p.assetId, p)
  }

  /** The SET clause of the node upsert. */
  function Assignments(p: AssetPayload): seq<(string, Option<string>)> {
    [("name", p.name), ("namespace", p.namespace), ("sourceSystem", p.sourceSystem)]
  }

  /** What delivering one message does to the stores. `auditAccepts` is the
      database's answer to the insert; a MERGE on a missing id is refused by the
      graph database. */
  function Deliver(s: Stores, m: Message, auditAccepts: bool): (Stores, Outcome) {
    if m.value.None? then (s, Skipped)
    else if !auditAccepts then (s, Failed(AuditInsert))
    else
      var p := m.value.value;
      var audit := s.audit + [IngestRow(p)];
      if p.assetId.None? then (Stores(audit, s.graph), Failed(GraphMerge))
      else (Stores(audit, MergeSet(s.graph, p.assetId.value, Assignments(p))), Ingested)
  }

  /** The `audit_logs` table. */
  class AuditTable {
    var rows: seq<AuditRow>

    constructor(rows0: seq<AuditRow>)
      ensures rows == rows0
    {
      rows := rows0;
    }

    /** An INSERT; `accepted` is whether the database accepts it. */
    method Insert(row: AuditRow, accepted: bool) returns (ok: bool)
      modifies this
      ensures ok == accepted
      ensures rows == if accepted then old(rows) + [row] else old(rows)
    {
      if accepted {
        rows := rows + [row];
      }
      ok := accepted;
    }
  }

  /** The `eachMessage` handler. */
  method HandleMessage(audit: AuditTable, graph: Store, m: Message, auditAccepts: bool)
    returns (outcome: Outcome)
    modifies audit, graph
    ensures (Stores(audit.rows, graph.State()), outcome)
            == Deliver(Stores(old(audit.rows), old(graph.State())), m, auditAccepts)
  {
    if m.value.None? {
      return Skipped;
    }
    var payload := m.value.value;
    var ok := audit.Insert(IngestRow(payload), auditAccepts);
    if !ok {
      return Failed(AuditInsert);
    }
    if payload.assetId.None? {
      return Failed(GraphMerge);
    }
    graph.MergeAndSet(payload.assetId.value, Assignments(payload));
    return Ingested;
  }

  // ---------------------------------------------------------------------------
  // Properties
  // ---------------------------------------------------------------------------

  /** A message without a value changes nothing. */
  lemma EmptyMessageIgnored(s: Stores, auditAccepts: bool)
    ensures Deliver(s, Message(None), auditAccepts) == (s, Skipped)
  {
  }

  /** The audit write comes first: when it fails, neither store changes. */
  lemma AuditFailureLeavesGraph(s: Stores, p: AssetPayload)
    ensures Deliver(s, Message(Some(p)), false) == (s, Failed(AuditInsert))
  {
  }

  /** An accepted message appends exactly one INGEST_ASSET row for its asset. */
  lemma OneAuditRowPerMessage(s: Stores, p: AssetPayload)
    ensures var s' := Deliver(s, Message(Some(p)), true).0;
      && s'.audit == s.audit + [AuditRow(None, "INGEST_ASSET", "ASSET", p.assetId, p)]
  {
  }

  /** After ingestion the asset's node exists, its three properties are the payload's
      (an absent one is removed), its other properties and all other nodes are as
      before, and no edge is added. */
  lemma IngestedNode(s: Stores, p: AssetPayload, key: string)
    requires p.assetId.Some?
    ensures var g := Deliver(s, Message(Some(p)), true).0.graph;
      var id := p.assetId.value;
      var before := if id in s.graph.nodes then s.graph.nodes[id] else map[];
      && id in g.nodes
      && g.nodes.Keys == s.graph.nodes.Keys + {id}
      && (forall k :: k in s.graph.nodes && k != id ==> g.nodes[k] == s.graph.nodes[k])
      && g.edges == s.graph.edges
      && ("name" in g.nodes[id] <==> p.name.Some?)
      && (p.name.Some? ==> g.nodes[id]["name"] == p.name.value)
      && ("namespace" in g.nodes[id] <==> p.namespace.Some?)
      && (p.namespace.Some? ==> g.nodes[id]["namespace"] == p.namespace.value)
      && ("sourceSystem" in g.nodes[id] <==> p.sourceSystem.Some?)
      && (p.sourceSystem.Some? ==> g.nodes[id]["sourceSystem"] == p.sourceSystem.value)
      && (key != "name" && key != "namespace" && key != "sourceSystem" ==>
            (key in g.nodes[id] <==> key in before)
            && (key in before ==> g.nodes[id][key] == before[key]))
  {
    var id := p.assetId.value;
    var before := if id in s.graph.nodes then s.graph.nodes[id] else map[];
    var a := Assignments(p);
    SetAllLast(before, a, 0);
    SetAllLast(before, a, 1);
    SetAllLast(before, a, 2);
    if key != "name" && key != "namespace" && key != "sourceSystem" {
      SetAllUnassigned(before, a, key);
    }
  }

  /** Applying the upsert's assignments twice is applying them once. */
  lemma AssignmentsIdempotent(props: Props, p: AssetPayload)
    ensures SetAll(SetAll(props, Assignments(p)), Assignments(p)) == SetAll(props, Assignments(p))
  {
    var a := Assignments(p);
    var once := SetAll(props, a);
    var twice := SetAll(once, a);
    forall key | true
      ensures (key in twice <==> key in once) && (key in twice ==> twice[key] == once[key])
    {
      if key == "name" || key == "namespace" || key == "sourceSystem" {
        var i := if key == "name" then 0 else if key == "namespace" then 1 else 2;
        SetAllLast(props, a, i);
        SetAllLast(once, a, i);
      } else {
        SetAllUnassigned(props, a, key);
        SetAllUnassigned(once, a, key);
      }
    }
  }

  /** Replaying a message leaves the graph as after one delivery, while the audit
      log grows by one row per delivery. */
  lemma ReplayIsIdempotentOnGraph(s: Stores, m: Message)
    ensures var once := Deliver(s, m, true).0;
      var twice := Deliver(once, m, true).0;
      && twice.graph == once.graph
      && |twice.audit| == |s.audit| + (if m.value.Some? then 2 else 0)
  {
    if m.value.Some? && m.value.value.assetId.Some? {
      var p := m.value.value;
      var id := p.assetId.value;
      var base := if id in s.graph.nodes then s.graph.nodes[id] else map[];
      AssignmentsIdempotent(base, p);
    }
  }

  /** The handler never creates or removes edges, and keeps the graph closed. */
  lemma DeliverKeepsEdges(s: Stores, m: Message, auditAccepts: bool)
    requires Closed(s.graph)
    ensures Deliver(s, m, auditAccepts).0.graph.edges == s.graph.edges
    ensures Closed(Deliver(s, m, auditAccepts).0.graph)
  {
  }
}
