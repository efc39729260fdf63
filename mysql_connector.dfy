/** The MySQL connector (services/connectors/src/connectors/mysql.ts). Its
    module-level state — `lastPollTime`, `isPolling` and `pollTimer` — becomes the
    fields of one object. `discover` emits five fixed assets and then five lineage
    events; each poll cycle runs four simulated checks that emit a new column, a
    new table and a new lineage edge, swallowing any error. The interval timer is
    an opaque handle, and each of its firings is an explicit call to `Tick`. */
module MySQLConnector {
  import opened Wrappers
  import opened ConnectorSdk

  const SourceSystem: string := "mysql"

  function Col(name: string, dataType: string): ColumnSchema {
    ColumnSchema(name, dataType, None)
  }

  /** An asset of this connector with the given columns and single owner. */
  function Asset(id: string, kind: AssetType, name: string, namespace: string,
                 columns: seq<ColumnSchema>, owner: string, now: Time): AssetEvent {
    AssetEvent(id, kind, name, namespace, SourceSystem, Some(AssetSchema(Some(columns))), Some([owner]), now)
  }

  function Flow(up: string, down: string, now: Time): LineageEvent {
    LineageEvent(LineageEndpointRef(up, None), LineageEndpointRef(down, None), None, None, now)
  }

  /** The five sample assets `discover` emits, in order. */
  function DiscoveredAssets(now: Time): seq<AssetEvent> {
    [Customers(now), Orders(now), OrderItems(now), Products(now), CustomerSummary(now)]
  }

  function Customers(now: Time): AssetEvent {
    Asset("mysql.sales.customers", TABLE, "customers", "sales",
          [Col("customer_id", "int"), Col("first_name", "varchar(50)"), Col("last_name", "varchar(50)"),
           Col("email", "varchar(100)"), Col("phone", "varchar(20)"), Col("created_at", "timestamp"),
           Col("updated_at", "timestamp")],
          "data-team@company.com", now)
  }

  function Orders(now: Time): AssetEvent {
    Asset("mysql.sales.orders", TABLE, "orders", "sales",
          [Col("order_id", "int"), Col("customer_id", "int"), Col("order_date", "date"),
           Col("total_amount", "decimal(10,2)"), Col("status", "enum"), Col("created_at", "timestamp")],
          "sales-team@company.com", now)
  }

  function OrderItems(now: Time): AssetEvent {
    Asset("mysql.sales.order_items", TABLE, "order_items", "sales",
          [Col("order_item_id", "int"), Col("order_id", "int"), Col("product_id", "int"),
           Col("quantity", "int"), Col("unit_price", "decimal(10,2)"), Col("total_price", "decimal(10,2)")],
          "sales-team@company.com", now)
  }

  function Products(now: Time): AssetEvent {
    Asset("mysql.inventory.products", TABLE, "products", "inventory",
          [Col("product_id", "int"), Col("product_name", "varchar(100)"), Col("category", "varchar(50)"),
           Col("price", "decimal(10,2)"), Col("stock_quantity", "int"), Col("supplier_id", "int"),
           Col("created_at", "timestamp")],
          "inventory-team@company.com", now)
  }

  function CustomerSummary(now: Time): AssetEvent {
    Asset("mysql.sales.customer_summary", VIEW, "customer_summary", "sales",
          [Col("customer_id", "int"), Col("customer_name", "varchar(100)"), Col("total_orders", "int"),
           Col("total_spent", "decimal(10,2)"), Col("last_order_date", "date")],
          "analytics-team@company.com", now)
  }

  /** The five lineage events `discover` emits after its assets. */
  function DiscoveredLineage(now: Time): seq<LineageEvent> {
    [ Flow("mysql.sales.customers", "mysql.sales.orders", now),
      Flow("mysql.sales.orders", "mysql.sales.order_items", now),
      Flow("mysql.inventory.products", "mysql.sales.order_items", now),
      Flow("mysql.sales.customers", "mysql.sales.customer_summary", now),
      Flow("mysql.sales.orders", "mysql.sales.customer_summary", now) ]
  }

  /** Everything `discover` sends: all assets first, then all lineage. */
  function DiscoverRecords(now: Time): seq<Record> {
    AssetRecords(DiscoveredAssets(now)) + LineageRecords(DiscoveredLineage(now))
  }

  /** The column asset of the schema-change check. */
  function SchemaChanges(now: Time): seq<AssetEvent> {
    [ Asset("mysql.sales.customers.middle_name", COLUMN, "middle_name", "sales",
            [Col("middle_name", "varchar(50)")], "data-team@company.com", now) ]
  }

  /** The table of the new-table check. */
  function NewTables(now: Time): seq<AssetEvent> {
    [ Asset("mysql.sales.promotions", TABLE, "promotions", "sales",
            [Col("promotion_id", "int"), Col("promotion_name", "varchar(100)"),
             Col("discount_percent", "decimal(5,2)"), Col("start_date", "date"), Col("end_date", "date"),
             Col("created_at", "timestamp")],
            "marketing-team@company.com", now) ]
  }

  /** The edge of the lineage-update check. */
  function LineageUpdates(now: Time): seq<LineageEvent> {
    [ LineageEvent(LineageEndpointRef("mysql.sales.promotions", None),
                   LineageEndpointRef("mysql.sales.orders", None),
                   Some(Transformation(SQL, Some("JOIN promotions ON orders.promotion_id = promotions.promotion_id"))),
                   None, now) ]
  }

  /** Everything one poll cycle sends. */
  function PollRecords(now: Time): (rs: seq<Record>)
    ensures |rs| == 3
  {
    AssetRecords(SchemaChanges(now)) + AssetRecords(NewTables(now)) + LineageRecords(LineageUpdates(now))
  }

  // ---------------------------------------------------------------------------
  // The simulated checks of a poll cycle
  // ---------------------------------------------------------------------------

  method CheckSchemaChanges(ctx: Context, now: Time) returns (ok: bool)
    modifies ctx
    ensures var n := Min(1, old(ctx.Budget()));
      && ok == (n == 1)
      && ctx.sent == old(ctx.sent) + AssetRecords(SchemaChanges(now))[..n]
      && ctx.Budget() == old(ctx.Budget()) - n
    ensures ctx.connected == old(ctx.connected)
    ensures ctx.log == old(ctx.log) + [Info("mysql checking for schema changes")]
  {
    ctx.LogInfo("mysql checking for schema changes");
    ok := EmitAssets(ctx, SchemaChanges(now));
  }

  method CheckNewTables(ctx: Context, now: Time) returns (ok: bool)
    modifies ctx
    ensures var n := Min(1, old(ctx.Budget()));
      && ok == (n == 1)
      && ctx.sent == old(ctx.sent) + AssetRecords(NewTables(now))[..n]
      && ctx.Budget() == old(ctx.Budget()) - n
    ensures ctx.connected == old(ctx.connected)
    ensures ctx.log == old(ctx.log) + [Info("mysql checking for new tables")]
  {
    ctx.LogInfo("mysql checking for new tables");
    ok := EmitAssets(ctx, NewTables(now));
  }

  method CheckLineageUpdates(ctx: Context, now: Time) returns (ok: bool)
    modifies ctx
    ensures var n := Min(1, old(ctx.Budget()));
      && ok == (n == 1)
      && ctx.sent == old(ctx.sent) + LineageRecords(LineageUpdates(now))[..n]
      && ctx.Budget() == old(ctx.Budget()) - n
    ensures ctx.connected == old(ctx.connected)
    ensures ctx.log == old(ctx.log) + [Info("mysql checking for lineage updates")]
  {
    ctx.LogInfo("mysql checking for lineage updates");
    ok := EmitLineages(ctx, LineageUpdates(now));
  }

  /** Only logs the one simulated quality issue; it emits nothing. */
  method CheckDataQuality(ctx: Context)
    modifies ctx
    ensures ctx.sent == old(ctx.sent) && ctx.Budget() == old(ctx.Budget())
    ensures ctx.connected == old(ctx.connected)
    ensures ctx.log == old(ctx.log) + [Info("mysql checking data quality"),
                                       Info("Data quality issue: Found 5 customers with null email addresses")]
  {
    ctx.LogInfo("mysql checking data quality");
    ctx.LogInfo("Data quality issue: Found 5 customers with null email addresses");
  }

  /** The three emitting checks of a cycle, in order, until one fails. */
  method RunChecks(ctx: Context, now: Time) returns (ok: bool)
    modifies ctx
    ensures var n := Min(3, old(ctx.Budget()));
      && ok == (n == 3)
      && ctx.sent == old(ctx.sent) + PollRecords(now)[..n]
      && ctx.Budget() == old(ctx.Budget()) - n
    ensures |ctx.log| >= |old(ctx.log)| && ctx.log[..|old(ctx.log)|] == old(ctx.log)
    ensures ctx.connected == old(ctx.connected)
  {
    ghost var budget := ctx.Budget();
    ghost var log0 := ctx.log;
    ghost var a := AssetRecords(SchemaChanges(now));
    ghost var b := AssetRecords(NewTables(now));
    ghost var c := LineageRecords(LineageUpdates(now));
    PrefixThenPrefix(a, b, budget);
    PrefixThenPrefix(a + b, c, budget);
    ok := CheckSchemaChanges(ctx, now);
    if ok {
      ok := CheckNewTables(ctx, now);
      if ok {
        ok := CheckLineageUpdates(ctx, now);
      }
    }
    assert ctx.log[..|log0|] == log0;
  }

  class Connector {
    const kind: string := "mysql"
    const name: string := "MySQL"
    /** Milliseconds between timer firings. */
    const pollInterval: nat := 30000
    var lastPollTime: Option<Time>
    var isPolling: bool
    var pollTimer: Option<Handle>

    /** A timer is installed exactly while a poll is running. */
    predicate Valid()
      reads this
    {
      isPolling <==> pollTimer.Some?
    }

    constructor()
      ensures Valid()
      ensures lastPollTime == None && !isPolling && pollTimer == None
    {
      lastPollTime := None;
      isPolling := false;
      pollTimer := None;
    }

    method Init(ctx: Context, now: Time)
      modifies this, ctx
      ensures lastPollTime == Some(now)
      ensures isPolling == old(isPolling) && pollTimer == old(pollTimer)
      ensures ctx.sent == old(ctx.sent) && ctx.Budget() == old(ctx.Budget()) && ctx.connected == old(ctx.connected)
      ensures ctx.log == old(ctx.log) + [Info("mysql init")]
    {
      ctx.LogInfo("mysql init");
      lastPollTime := Some(now);
    }

    /** Emits the assets, then the lineage; false when a send failed, which throws. */
    method Discover(ctx: Context, now: Time) returns (ok: bool)
      modifies ctx
      ensures var n := Min(10, old(ctx.Budget()));
        && ok == (n == 10)
        && ctx.sent == old(ctx.sent) + DiscoverRecords(now)[..n]
        && ctx.Budget() == old(ctx.Budget()) - n
      ensures ctx.connected == old(ctx.connected)
      ensures ctx.log == old(ctx.log) + [Info("mysql discover")]
    {
      ctx.LogInfo("mysql discover");
      ok := EmitAssetsThenLineages(ctx, DiscoveredAssets(now), DiscoveredLineage(now));
    }

    /** One poll cycle. A failed send skips the remaining checks; the error is
        logged and never escapes. */
    method PerformPoll(ctx: Context, now: Time)
      modifies this, ctx
      ensures var n := Min(3, old(ctx.Budget()));
        && ctx.sent == old(ctx.sent) + PollRecords(now)[..n]
        && ctx.Budget() == old(ctx.Budget()) - n
        && lastPollTime == (if n == 3 then Some(now) else old(lastPollTime))
        && |ctx.log| > |old(ctx.log)| && ctx.log[..|old(ctx.log)|] == old(ctx.log)
        && ctx.log[|ctx.log| - 1]
           == (if n == 3 then Info("mysql poll completed successfully") else Error("Error in mysql performPoll"))
      ensures isPolling == old(isPolling) && pollTimer == old(pollTimer)
      ensures ctx.connected == old(ctx.connected)
    {
      ghost var log0 := ctx.log;
      ctx.LogInfo("mysql performing poll");
      var ok := RunChecks(ctx, now);
      if ok {
        CheckDataQuality(ctx);
        lastPollTime := Some(now);
        ctx.LogInfo("mysql poll completed successfully");
      } else {
        ctx.LogError("Error in mysql performPoll");
      }
      assert ctx.log[..|log0|] == log0;
    }

    /** `poll`: a no-op while a poll is running; otherwise installs the interval
        timer `handle` and runs the first cycle. The catch that would reset
        `isPolling` is unreachable because a cycle never throws. */
    method Poll(ctx: Context, handle: Handle, now: Time)
      requires Valid()
      modifies this, ctx
      ensures Valid()
      ensures old(isPolling) ==>
                && isPolling && pollTimer == old(pollTimer) && lastPollTime == old(lastPollTime)
                && ctx.sent == old(ctx.sent) && ctx.Budget() == old(ctx.Budget())
                && ctx.log == old(ctx.log) + [Info("mysql poll already running, skipping")]
      ensures !old(isPolling) ==>
                var n := Min(3, old(ctx.Budget()));
                && isPolling && pollTimer == Some(handle)
                && ctx.sent == old(ctx.sent) + PollRecords(now)[..n]
                && ctx.Budget() == old(ctx.Budget()) - n
                && lastPollTime == (if n == 3 then Some(now) else old(lastPollTime))
                && |ctx.log| > |old(ctx.log)| + 1
                && ctx.log[..|old(ctx.log)| + 1] == old(ctx.log) + [Info("mysql poll started")]
      ensures ctx.connected == old(ctx.connected)
    {
      if isPolling {
        ctx.LogInfo("mysql poll already running, skipping");
        return;
      }
      isPolling := true;
      ctx.LogInfo("mysql poll started");
      pollTimer := Some(handle);
      ghost var log1 := ctx.log;
      PerformPoll(ctx, now);
      assert ctx.log[..|log1|] == log1;
    }

    /** One firing of the interval timer: a cycle runs while the timer is installed,
        whatever `isPolling` says. */
    method Tick(ctx: Context, now: Time)
      requires Valid()
      modifies this, ctx
      ensures Valid()
      ensures isPolling == old(isPolling) && pollTimer == old(pollTimer)
      ensures ctx.connected == old(ctx.connected)
      ensures old(pollTimer).None? ==>
                && lastPollTime == old(lastPollTime)
                && ctx.sent == old(ctx.sent) && ctx.Budget() == old(ctx.Budget()) && ctx.log == old(ctx.log)
      ensures old(pollTimer).Some? ==>
                var n := Min(3, old(ctx.Budget()));
                && ctx.sent == old(ctx.sent) + PollRecords(now)[..n]
                && ctx.Budget() == old(ctx.Budget()) - n
                && lastPollTime == (if n == 3 then Some(now) else old(lastPollTime))
                && |ctx.log| > |old(ctx.log)| && ctx.log[..|old(ctx.log)|] == old(ctx.log)
                && ctx.log[|ctx.log| - 1]
                   == (if n == 3 then Info("mysql poll completed successfully") else Error("Error in mysql performPoll"))
    {
      if pollTimer.Some? {
        PerformPoll(ctx, now);
      }
    }

    /** `shutdown`: clears the timer and the polling flag. */
    method Shutdown(ctx: Context)
      modifies this, ctx
      ensures Valid() && !isPolling && pollTimer == None && lastPollTime == old(lastPollTime)
      ensures ctx.sent == old(ctx.sent) && ctx.Budget() == old(ctx.Budget()) && ctx.connected == old(ctx.connected)
      ensures ctx.log == old(ctx.log) + [Info("mysql shutdown started"), Info("mysql shutdown completed")]
    {
      ctx.LogInfo("mysql shutdown started");
      if pollTimer.Some? {
        pollTimer := None;
      }
      isPolling := false;
      ctx.LogInfo("mysql shutdown completed");
    }
  }

  // ---------------------------------------------------------------------------
  // Properties of the emitted metadata
  // ---------------------------------------------------------------------------

  function AssetIds(es: seq<AssetEvent>): (ids: seq<string>)
    ensures |ids| == |es| && forall i :: 0 <= i < |es| ==> ids[i] == es[i].assetId
  {
    if es == [] then [] else [es[0].assetId] + AssetIds(es[1..])
  }

  /** An asset id of the form `sourceSystem.namespace.name`. */
  predicate Qualified(a: AssetEvent) {
    a.assetId == a.sourceSystem + "." + a.namespace + "." + a.name
  }

  /** Every discovered asset id is `sourceSystem.namespace.name`. */
  lemma DiscoveredIdsAreQualifiedNames(now: Time)
    ensures forall a :: a in DiscoveredAssets(now) ==> Qualified(a)
  {
    CustomersQualified(now);
    OrdersQualified(now);
    OrderItemsQualified(now);
    ProductsQualified(now);
    CustomerSummaryQualified(now);
  }

  lemma CustomersQualified(now: Time)
    ensures Qualified(Customers(now))
  {
    assert "mysql" + "." + "sales" + "." + "customers" == "mysql.sales.customers";
  }

  lemma OrdersQualified(now: Time)
    ensures Qualified(Orders(now))
  {
    assert "mysql" + "." + "sales" + "." + "orders" == "mysql.sales.orders";
  }

  lemma OrderItemsQualified(now: Time)
    ensures Qualified(OrderItems(now))
  {
    assert "mysql" + "." + "sales" + "." + "order_items" == "mysql.sales.order_items";
  }

  lemma ProductsQualified(now: Time)
    ensures Qualified(Products(now))
  {
    assert "mysql" + "." + "inventory" + "." + "products" == "mysql.inventory.products";
  }

  lemma CustomerSummaryQualified(now: Time)
    ensures Qualified(CustomerSummary(now))
  {
    assert "mysql" + "." + "sales" + "." + "customer_summary" == "mysql.sales.customer_summary";
  }

  /** The discovered ids are distinct. */
  lemma DiscoveredIdsDistinct(now: Time)
    ensures var ids := AssetIds(DiscoveredAssets(now));
      forall i, j :: 0 <= i < j < |ids| ==> ids[i] != ids[j]
  {
    var ids := AssetIds(DiscoveredAssets(now));
    assert |ids[0]| == 21 && |ids[1]| == 18 && |ids[2]| == 23 && |ids[3]| == 24 && |ids[4]| == 28;
    forall i, j | 0 <= i < j < |ids| ensures ids[i] != ids[j] {
      assert i == 0 || i == 1 || i == 2 || i == 3;
      assert j == 1 || j == 2 || j == 3 || j == 4;
    }
  }

  /** Both ends of every discovered lineage event are discovered assets. */
  lemma DiscoveredLineageIsClosed(now: Time)
    ensures forall e :: e in DiscoveredLineage(now) ==>
              e.upstream.assetId in AssetIds(DiscoveredAssets(now))
              && e.downstream.assetId in AssetIds(DiscoveredAssets(now))
  {
    var ids := AssetIds(DiscoveredAssets(now));
    assert ids[0] == "mysql.sales.customers" && ids[1] == "mysql.sales.orders";
    assert ids[2] == "mysql.sales.order_items" && ids[3] == "mysql.inventory.products";
    assert ids[4] == "mysql.sales.customer_summary";
  }

  /** A poll cycle sends one COLUMN asset, then one TABLE asset, then one lineage
      event whose ends are that table and a discovered asset; the column's id
      extends the id of the discovered table it belongs to. */
  lemma PollCycleShape(now: Time)
    ensures var rs := PollRecords(now);
      && |rs| == 3
      && rs[0].topic == AssetsTopic && rs[0].value.AssetPayload? && rs[0].value.asset.assetType == COLUMN
      && rs[1].topic == AssetsTopic && rs[1].value.AssetPayload? && rs[1].value.asset.assetType == TABLE
      && rs[2].topic == LineageTopic && rs[2].value.LineagePayload?
      && rs[2].value.lineage.upstream.assetId == rs[1].value.asset.assetId
      && rs[2].value.lineage.downstream.assetId in AssetIds(DiscoveredAssets(now))
      && rs[0].value.asset.assetId == AssetIds(DiscoveredAssets(now))[0] + ".middle_name"
  {
    var rs := PollRecords(now);
    var ids := AssetIds(DiscoveredAssets(now));
    assert rs == [AssetRecord(SchemaChanges(now)[0]), AssetRecord(NewTables(now)[0]),
                  LineageRecord(LineageUpdates(now)[0])];
    assert ids[0] == "mysql.sales.customers" && ids[1] == "mysql.sales.orders";
    MiddleNameExtendsCustomers();
  }

  lemma MiddleNameExtendsCustomers()
    ensures "mysql.sales.customers" + ".middle_name" == "mysql.sales.customers.middle_name"
  {
  }
}
