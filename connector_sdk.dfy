/** The connector SDK (services/connectors/src/sdk): the metadata events a
    connector produces, and the context it emits them through. The context of the
    harness (services/connectors/src/harness.ts) wraps a Kafka producer: an asset
    event goes to `metadata.assets.v1` keyed by its asset id, a lineage event to
    `metadata.lineage.v1` keyed by `<upstream id>-><downstream id>`.

    The broker is modelled by how many further sends it accepts: a send fails
    when the producer is not connected or the broker accepts no more, and a
    failed send is the exception `emitAsset`/`emitLineage` would throw. */
module ConnectorSdk {
  import opened Wrappers

  /** A clock reading. The ISO-8601 strings the connectors derive from it are not modelled. */
  type Time = nat

  /** The opaque handle `setInterval` returns. */
  datatype Handle = Handle(id: nat)

  datatype AssetType = TABLE | VIEW | COLUMN | REPORT

  datatype ColumnSchema = ColumnSchema(name: string, dataType: string, classification: Option<string>)

  datatype AssetSchema = AssetSchema(columns: Option<seq<ColumnSchema>>)

  datatype AssetEvent = AssetEvent(
    assetId: string,
    assetType: AssetType,
    name: string,
    namespace: string,
    sourceSystem: string,
    schema: Option<AssetSchema>,
    owners: Option<seq<string>>,
    updatedAt: Time)

  datatype LineageEndpointRef = LineageEndpointRef(assetId: string, column: Option<string>)

  datatype TransformationType = SQL | ETL | OTHER

  datatype Transformation = Transformation(kind: TransformationType, expression: Option<string>)

  datatype LineageEvent = LineageEvent(
    upstream: LineageEndpointRef,
    downstream: LineageEndpointRef,
    transformation: Option<Transformation>,
    version: Option<string>,
    observedAt: Time)

  /** The value of a Kafka message: the event it serialises. */
  datatype Payload = AssetPayload(asset: AssetEvent) | LineagePayload(lineage: LineageEvent)

  /** One message handed to `producer.send`. */
  datatype Record = Record(topic: string, key: string, value: Payload)

  /** A line written through `ctx.logger`; timestamps and error details are not kept. */
  datatype LogEntry =
    | Info(text: string)
    | Error(text: string)
    | ConnectorStarting(name: string, kind: string)
    | ConnectorFinished(name: string)

  const AssetsTopic: string := "metadata.assets.v1"
  const LineageTopic: string := "metadata.lineage.v1"

  /** The key of a lineage message. */
  function LineageKey(e: LineageEvent): string {
    e.upstream.assetId + "->" + e.downstream.assetId
  }

  function AssetRecord(e: AssetEvent): Record {
    Record(AssetsTopic, e.assetId, AssetPayload(e))
  }

  function LineageRecord(e: LineageEvent): Record {
    Record(LineageTopic, LineageKey(e), LineagePayload(e))
  }

  /** The messages of a list of asset events, one each, in order. */
  function AssetRecords(es: seq<AssetEvent>): (rs: seq<Record>)
    ensures |rs| == |es|
    ensures forall i :: 0 <= i < |es| ==>
              rs[i].topic == AssetsTopic && rs[i].key == es[i].assetId && rs[i].value == AssetPayload(es[i])
  {
    seq(|es|, i requires 0 <= i < |es| => AssetRecord(es[i]))
  }

  /** The messages of a list of lineage events, one each, in order. */
  function LineageRecords(es: seq<LineageEvent>): (rs: seq<Record>)
    ensures |rs| == |es|
    ensures forall i :: 0 <= i < |es| ==>
              rs[i].topic == LineageTopic && rs[i].key == LineageKey(es[i]) && rs[i].value == LineagePayload(es[i])
  {
    seq(|es|, i requires 0 <= i < |es| => LineageRecord(es[i]))
  }

  function Min(a: nat, b: nat): nat {
    if a <= b then a else b
  }

  /** A lineage key determines both endpoint ids when neither upstream id contains '>'. */
  lemma LineageKeyInjective(a: LineageEvent, b: LineageEvent)
    requires '>' !in a.upstream.assetId && '>' !in b.upstream.assetId
    requires LineageKey(a) == LineageKey(b)
    ensures a.upstream.assetId == b.upstream.assetId
    ensures a.downstream.assetId == b.downstream.assetId
  {
    var ua, ub := a.upstream.assetId, b.upstream.assetId;
    var k := LineageKey(a);
    ArrowPosition(ua, a.downstream.assetId);
    ArrowPosition(ub, b.downstream.assetId);
    assert |ua| == |ub|;
    assert ua == k[..|ua|] == ub;
    assert a.downstream.assetId == k[|ua| + 2..] == b.downstream.assetId;
  }

  /** In `up + "->" + down`, the first '>' follows the upstream id and its dash. */
  lemma ArrowPosition(up: string, down: string)
    requires '>' !in up
    ensures var k := up + "->" + down;
      && k[..|up|] == up && k[|up|] == '-' && k[|up| + 1] == '>'
      && '>' !in k[..|up| + 1] && k[|up| + 2..] == down
  {
    var k := up + "->" + down;
    assert k[..|up| + 1] == up + "-";
  }

  /** The context handed to every connector: the producer, its broker, and the logger. */
  class Context {
    var connected: bool
    /** How many further sends the broker accepts. */
    var accepting: nat
    var sent: seq<Record>
    var log: seq<LogEntry>

    /** How many further sends will succeed. */
    function Budget(): nat
      reads this
    {
      if connected then accepting else 0
    }

    constructor(accepting0: nat)
      ensures !connected && accepting == accepting0 && sent == [] && log == []
    {
      connected := false;
      accepting := accepting0;
      sent := [];
      log := [];
    }

    /** `producer.connect()`; `brokerUp` is whether the broker can be reached. */
    method Connect(brokerUp: bool) returns (ok: bool)
      modifies this
      ensures ok == brokerUp && connected == (old(connected) || brokerUp)
      ensures accepting == old(accepting) && sent == old(sent) && log == old(log)
    {
      ok := brokerUp;
      if brokerUp {
        connected := true;
      }
    }

    /** `producer.disconnect()`. */
    method Disconnect()
      modifies this
      ensures !connected && accepting == old(accepting) && sent == old(sent) && log == old(log)
    {
      connected := false;
    }

    method LogInfo(text: string)
      modifies this
      ensures log == old(log) + [Info(text)]
      ensures connected == old(connected) && accepting == old(accepting) && sent == old(sent)
    {
      log := log + [Info(text)];
    }

    method LogError(text: string)
      modifies this
      ensures log == old(log) + [Error(text)]
      ensures connected == old(connected) && accepting == old(accepting) && sent == old(sent)
    {
      log := log + [Error(text)];
    }

    method Append(entry: LogEntry)
      modifies this
      ensures log == old(log) + [entry]
      ensures connected == old(connected) && accepting == old(accepting) && sent == old(sent)
    {
      log := log + [entry];
    }

    /** `producer.send` of one message; false when it would throw. */
    method Send(r: Record) returns (ok: bool)
      modifies this
      ensures ok == (old(Budget()) > 0)
      ensures sent == if ok then old(sent) + [r] else old(sent)
      ensures Budget() == old(Budget()) - (if ok then 1 else 0)
      ensures connected == old(connected) && log == old(log)
    {
      ok := connected && accepting > 0;
      if ok {
        sent := sent + [r];
        accepting := accepting - 1;
      }
    }

    /** `ctx.emitAsset(event)`. */
    method EmitAsset(e: AssetEvent) returns (ok: bool)
      modifies this
      ensures ok == (old(Budget()) > 0)
      ensures sent == if ok then old(sent) + [AssetRecord(e)] else old(sent)
      ensures Budget() == old(Budget()) - (if ok then 1 else 0)
      ensures connected == old(connected) && log == old(log)
    {
      ok := Send(Record(AssetsTopic, e.assetId, AssetPayload(e)));
    }

    /** `ctx.emitLineage(event)`. */
    method EmitLineage(e: LineageEvent) returns (ok: bool)
      modifies this
      ensures ok == (old(Budget()) > 0)
      ensures sent == if ok then old(sent) + [LineageRecord(e)] else old(sent)
      ensures Budget() == old(Budget()) - (if ok then 1 else 0)
      ensures connected == old(connected) && log == old(log)
    {
      var key := e.upstream.assetId + "->" + e.downstream.assetId;
      ok := Send(Record(LineageTopic, key, LineagePayload(e)));
    }
  }

  /** `for (const asset of assets) await ctx.emitAsset(asset)`: stops at the first
      failed send, which would throw out of the loop. */
  method EmitAssets(ctx: Context, assets: seq<AssetEvent>) returns (ok: bool)
    modifies ctx
    ensures var n := Min(|assets|, old(ctx.Budget()));
      && ok == (n == |assets|)
      && ctx.sent == old(ctx.sent) + AssetRecords(assets)[..n]
      && ctx.Budget() == old(ctx.Budget()) - n
    ensures ctx.connected == old(ctx.connected) && ctx.log == old(ctx.log)
  {
    ghost var rs := AssetRecords(assets);
    for i := 0 to |assets|
      invariant i <= old(ctx.Budget())
      invariant ctx.sent == old(ctx.sent) + rs[..i]
      invariant ctx.Budget() == old(ctx.Budget()) - i
      invariant ctx.connected == old(ctx.connected) && ctx.log == old(ctx.log)
    {
      ok := ctx.EmitAsset(assets[i]);
      if !ok {
        return;
      }
      assert rs[..i + 1] == rs[..i] + [rs[i]];
    }
    ok := true;
    assert rs[..|assets|] == rs;
  }

  /** `for (const e of events) await ctx.emitLineage(e)`. */
  method EmitLineages(ctx: Context, events: seq<LineageEvent>) returns (ok: bool)
    modifies ctx
    ensures var n := Min(|events|, old(ctx.Budget()));
      && ok == (n == |events|)
      && ctx.sent == old(ctx.sent) + LineageRecords(events)[..n]
      && ctx.Budget() == old(ctx.Budget()) - n
    ensures ctx.connected == old(ctx.connected) && ctx.log == old(ctx.log)
  {
    ghost var rs := LineageRecords(events);
    for i := 0 to |events|
      invariant i <= old(ctx.Budget())
      invariant ctx.sent == old(ctx.sent) + rs[..i]
      invariant ctx.Budget() == old(ctx.Budget()) - i
      invariant ctx.connected == old(ctx.connected) && ctx.log == old(ctx.log)
    {
      ok := ctx.EmitLineage(events[i]);
      if !ok {
        return;
      }
      assert rs[..i + 1] == rs[..i] + [rs[i]];
    }
    ok := true;
    assert rs[..|events|] == rs;
  }

  /** The assets, then the lineage events, each in an awaited loop: a failed send
      throws before anything further is sent. */
  method EmitAssetsThenLineages(ctx: Context, assets: seq<AssetEvent>, events: seq<LineageEvent>) returns (ok: bool)
    modifies ctx
    ensures var all := AssetRecords(assets) + LineageRecords(events);
      var n := Min(|all|, old(ctx.Budget()));
      && ok == (n == |all|)
      && ctx.sent == old(ctx.sent) + all[..n]
      && ctx.Budget() == old(ctx.Budget()) - n
    ensures ctx.connected == old(ctx.connected) && ctx.log == old(ctx.log)
  {
    ghost var budget := ctx.Budget();
    PrefixThenPrefix(AssetRecords(assets), LineageRecords(events), budget);
    ok := EmitAssets(ctx, assets);
    if ok {
      ok := EmitLineages(ctx, events);
    }
  }

  /** Sending a prefix of a, then a prefix of b with what budget is left, sends a
      prefix of a + b: a failed send is never followed by a successful one. */
  lemma PrefixThenPrefix(a: seq<Record>, b: seq<Record>, budget: nat)
    ensures var n := Min(|a|, budget);
      a[..n] + b[..Min(|b|, budget - n)] == (a + b)[..Min(|a| + |b|, budget)]
  {
    var n := Min(|a|, budget);
    if budget < |a| {
      assert (a + b)[..budget] == a[..budget];
    } else {
      assert (a + b)[..Min(|a| + |b|, budget)] == a + b[..Min(|b|, budget - n)];
    }
  }
}
