/** The Tableau connector (services/connectors/src/connectors/tableau.ts). Its
    module-level `isPolling` and `pollTimer` become the fields of one object.
    `discover` emits two dashboards; each poll cycle emits one new dashboard and
    then only logs a layout update and a data-source change, swallowing any error. */
module TableauConnector {
  import opened Wrappers
  import opened ConnectorSdk

  function Col(name: string, dataType: string): ColumnSchema {
    ColumnSchema(name, dataType, None)
  }

  function CustomerDashboard(now: Time): AssetEvent {
    AssetEvent("tableau.sales.customer_dashboard", REPORT, "Customer Dashboard", "sales", "tableau",
               Some(AssetSchema(Some([Col("customer_count", "number"), Col("total_revenue", "currency"),
                                      Col("avg_order_value", "currency")]))),
               Some(["analytics-team@company.com"]), now)
  }

  function StockMonitoring(now: Time): AssetEvent {
    AssetEvent("tableau.inventory.stock_monitoring", REPORT, "Stock Monitoring", "inventory", "tableau",
               Some(AssetSchema(Some([Col("product_name", "string"), Col("current_stock", "number"),
                                      Col("reorder_level", "number")]))),
               Some(["inventory-team@company.com"]), now)
  }

  /** The report of the new-asset check. */
  function RevenueAnalysis(now: Time): AssetEvent {
    AssetEvent("tableau.finance.revenue_analysis", REPORT, "Revenue Analysis", "finance", "tableau",
               Some(AssetSchema(Some([Col("month", "date"), Col("revenue", "currency"),
                                      Col("growth_rate", "percentage")]))),
               Some(["finance-team@company.com"]), now)
  }

  /** The two dashboards `discover` emits, in order. */
  function DiscoveredAssets(now: Time): seq<AssetEvent> {
    [CustomerDashboard(now), StockMonitoring(now)]
  }

  function DiscoverRecords(now: Time): seq<Record> {
    AssetRecords(DiscoveredAssets(now))
  }

  /** Everything one poll cycle sends. */
  function PollRecords(now: Time): seq<Record> {
    AssetRecords([RevenueAnalysis(now)])
  }

  /** The lines the two log-only checks write after their headings. */
  const UpdateLine: string := "Tableau update: Dashboard layout updated with new filters"
  const DataSourceLine: string := "Data source change: DATA_SOURCE_UPDATED for mysql.sales.customers"

  method CheckNewAssets(ctx: Context, now: Time) returns (ok: bool)
    modifies ctx
    ensures var n := Min(1, old(ctx.Budget()));
      && ok == (n == 1)
      && ctx.sent == old(ctx.sent) + PollRecords(now)[..n]
      && ctx.Budget() == old(ctx.Budget()) - n
    ensures ctx.connected == old(ctx.connected)
    ensures ctx.log == old(ctx.log) + [Info("tableau checking for new assets")]
  {
    ctx.LogInfo("tableau checking for new assets");
    ok := EmitAssets(ctx, [RevenueAnalysis(now)]);
  }

  /** Logs the one simulated dashboard update; it emits nothing. */
  method CheckUpdates(ctx: Context)
    modifies ctx
    ensures ctx.sent == old(ctx.sent) && ctx.Budget() == old(ctx.Budget()) && ctx.connected == old(ctx.connected)
    ensures ctx.log == old(ctx.log) + [Info("tableau checking for updates"), Info(UpdateLine)]
  {
    ctx.LogInfo("tableau checking for updates");
    ctx.LogInfo(UpdateLine);
  }

  /** Logs the one simulated data-source change; it emits nothing. */
  method CheckDataSources(ctx: Context)
    modifies ctx
    ensures ctx.sent == old(ctx.sent) && ctx.Budget() == old(ctx.Budget()) && ctx.connected == old(ctx.connected)
    ensures ctx.log == old(ctx.log) + [Info("tableau checking data sources"), Info(DataSourceLine)]
  {
    ctx.LogInfo("tableau checking data sources");
    ctx.LogInfo(DataSourceLine);
  }

  class Connector {
    const kind: string := "tableau"
    const name: string := "Tableau"
    /** Milliseconds between timer firings. */
    const pollInterval: nat := 60000
    var isPolling: bool
    var pollTimer: Option<Handle>

    /** A timer is installed exactly while a poll is running. */
    predicate Valid()
      reads this
    {
      isPolling <==> pollTimer.Some?
    }

    constructor()
      ensures Valid()
      ensures !isPolling && pollTimer == None
    {
      isPolling := false;
      pollTimer := None;
    }

    /** `init` only logs. */
    method Init(ctx: Context)
      modifies ctx
      ensures ctx.sent == old(ctx.sent) && ctx.Budget() == old(ctx.Budget()) && ctx.connected == old(ctx.connected)
      ensures ctx.log == old(ctx.log) + [Info("tableau init")]
    {
      ctx.LogInfo("tableau init");
    }

    /** Emits the two dashboards and no lineage; false when a send failed, which throws. */
    method Discover(ctx: Context, now: Time) returns (ok: bool)
      modifies ctx
      ensures var n := Min(2, old(ctx.Budget()));
        && ok == (n == 2)
        && ctx.sent == old(ctx.sent) + DiscoverRecords(now)[..n]
        && ctx.Budget() == old(ctx.Budget()) - n
      ensures ctx.connected == old(ctx.connected)
      ensures ctx.log == old(ctx.log) + [Info("tableau discover")]
    {
      ctx.LogInfo("tableau discover");
      ok := EmitAssets(ctx, DiscoveredAssets(now));
    }

    /** One poll cycle. A failed send skips the log-only checks; the error is
        logged and never escapes. */
    method PerformPoll(ctx: Context, now: Time)
      modifies ctx
      ensures var n := Min(1, old(ctx.Budget()));
        && ctx.sent == old(ctx.sent) + PollRecords(now)[..n]
        && ctx.Budget() == old(ctx.Budget()) - n
        && |ctx.log| > |old(ctx.log)| && ctx.log[..|old(ctx.log)|] == old(ctx.log)
        && ctx.log[|ctx.log| - 1]
           == (if n == 1 then Info("tableau poll completed successfully") else Error("Error in tableau performPoll"))
      ensures ctx.connected == old(ctx.connected)
    {
      ghost var log0 := ctx.log;
      ctx.LogInfo("tableau performing poll");
      var ok := CheckNewAssets(ctx, now);
      if ok {
        CheckUpdates(ctx);
        CheckDataSources(ctx);
        ctx.LogInfo("tableau poll completed successfully");
      } else {
        ctx.LogError("Error in tableau performPoll");
      }
      assert ctx.log[..|log0|] == log0;
    }

    /** `poll`: a no-op while a poll is running; otherwise installs the interval
        timer `handle` and runs the first cycle. */
    method Poll(ctx: Context, handle: Handle, now: Time)
      requires Valid()
      modifies this, ctx
      ensures Valid()
      ensures old(isPolling) ==>
                && isPolling && pollTimer == old(pollTimer)
                && ctx.sent == old(ctx.sent) && ctx.Budget() == old(ctx.Budget())
                && ctx.log == old(ctx.log) + [Info("tableau poll already running, skipping")]
      ensures !old(isPolling) ==>
                var n := Min(1, old(ctx.Budget()));
                && isPolling && pollTimer == Some(handle)
                && ctx.sent == old(ctx.sent) + PollRecords(now)[..n]
                && ctx.Budget() == old(ctx.Budget()) - n
                && |ctx.log| > |old(ctx.log)| + 1
                && ctx.log[..|old(ctx.log)| + 1] == old(ctx.log) + [Info("tableau poll started")]
      ensures ctx.connected == old(ctx.connected)
    {
      if isPolling {
        ctx.LogInfo("tableau poll already running, skipping");
        return;
      }
      isPolling := true;
      ctx.LogInfo("tableau poll started");
      pollTimer := Some(handle);
      ghost var log1 := ctx.log;
      PerformPoll(ctx, now);
      assert ctx.log[..|log1|] == log1;
    }

    /** One firing of the interval timer. */
    method Tick(ctx: Context, now: Time)
      requires Valid()
      modifies ctx
      ensures ctx.connected == old(ctx.connected)
      ensures old(pollTimer).None? ==>
                ctx.sent == old(ctx.sent) && ctx.Budget() == old(ctx.Budget()) && ctx.log == old(ctx.log)
      ensures old(pollTimer).Some? ==>
                var n := Min(1, old(ctx.Budget()));
                && ctx.sent == old(ctx.sent) + PollRecords(now)[..n]
                && ctx.Budget() == old(ctx.Budget()) - n
                && |ctx.log| > |old(ctx.log)| && ctx.log[..|old(ctx.log)|] == old(ctx.log)
                && ctx.log[|ctx.log| - 1]
                   == (if n == 1 then Info("tableau poll completed successfully") else Error("Error in tableau performPoll"))
    {
      if pollTimer.Some? {
        PerformPoll(ctx, now);
      }
    }

    /** `shutdown`: clears the timer and the polling flag. */
    method Shutdown(ctx: Context)
      modifies this, ctx
      ensures Valid() && !isPolling && pollTimer == None
      ensures ctx.sent == old(ctx.sent) && ctx.Budget() == old(ctx.Budget()) && ctx.connected == old(ctx.connected)
      ensures ctx.log == old(ctx.log) + [Info("tableau shutdown started"), Info("tableau shutdown completed")]
    {
      ctx.LogInfo("tableau shutdown started");
      if pollTimer.Some? {
        pollTimer := None;
      }
      isPolling := false;
      ctx.LogInfo("tableau shutdown completed");
    }
  }

  // ---------------------------------------------------------------------------
  // Properties of the emitted metadata
  // ---------------------------------------------------------------------------

  /** `discover` sends exactly two REPORT assets and no lineage. */
  lemma DiscoverIsTwoReports(now: Time)
    ensures var rs := DiscoverRecords(now);
      && |rs| == 2
      && forall i :: 0 <= i < 2 ==>
           rs[i].topic == AssetsTopic && rs[i].value.AssetPayload? && rs[i].value.asset.assetType == REPORT
  {
  }

  /** A poll cycle sends exactly one asset, a REPORT. */
  lemma PollCycleShape(now: Time)
    ensures var rs := PollRecords(now);
      && |rs| == 1 && rs[0].topic == AssetsTopic
      && rs[0].value.AssetPayload? && rs[0].value.asset.assetType == REPORT
  {
  }

  /** Unlike the database connectors, a Tableau id is not `sourceSystem.namespace.name`:
      the name is a display title, while the id's last segment is a slug. */
  lemma IdsAreNotQualifiedNames(now: Time)
    ensures var a := CustomerDashboard(now);
      a.assetId != a.sourceSystem + "." + a.namespace + "." + a.name
  {
    var a := CustomerDashboard(now);
    var q := a.sourceSystem + "." + a.namespace + "." + a.name;
    assert q[14] == 'C';
    assert a.assetId[14] == 'c';
  }
}
