/** The PostgreSQL connector (services/connectors/src/connectors/postgres.ts). Its
    module-level `isPolling` and `pollTimer` become the fields of one object.
    `discover` emits one sample table; each poll cycle emits a new table and then a
    new column of the sample table, swallowing any error. Timer firings are explicit
    calls to `Tick`. */
module PostgresConnector {
  import opened Wrappers
  import opened ConnectorSdk

  function Col(name: string, dataType: string): ColumnSchema {
    ColumnSchema(name, dataType, None)
  }

  /** The one table `discover` emits. */
  function SampleTable(now: Time): AssetEvent {
    AssetEvent("pg.public.sample_table", TABLE, "sample_table", "public", "pg",
               Some(AssetSchema(Some([Col("id", "int4")]))), Some([]), now)
  }

  /** The table of the new-table check. */
  function Users(now: Time): AssetEvent {
    AssetEvent("pg.public.users", TABLE, "users", "public", "pg",
               Some(AssetSchema(Some([Col("user_id", "uuid"), Col("username", "varchar(50)"),
                                      Col("email", "varchar(100)"), Col("created_at", "timestamp")]))),
               Some(["admin-team@company.com"]), now)
  }

  /** The column asset of the schema-change check: the column name is its name. */
  function StatusColumn(now: Time): AssetEvent {
    AssetEvent("pg.public.sample_table.status", COLUMN, "status", "public", "pg",
               Some(AssetSchema(Some([Col("status", "varchar(20)")]))),
               Some(["data-team@company.com"]), now)
  }

  /** Everything `discover` sends. */
  function DiscoverRecords(now: Time): seq<Record> {
    AssetRecords([SampleTable(now)])
  }

  /** Everything one poll cycle sends: the new table first, then the column. */
  function PollRecords(now: Time): seq<Record> {
    AssetRecords([Users(now)]) + AssetRecords([StatusColumn(now)])
  }

  method CheckNewTables(ctx: Context, now: Time) returns (ok: bool)
    modifies ctx
    ensures var n := Min(1, old(ctx.Budget()));
      && ok == (n == 1)
      && ctx.sent == old(ctx.sent) + AssetRecords([Users(now)])[..n]
      && ctx.Budget() == old(ctx.Budget()) - n
    ensures ctx.connected == old(ctx.connected)
    ensures ctx.log == old(ctx.log) + [Info("postgres checking for new tables")]
  {
    ctx.LogInfo("postgres checking for new tables");
    ok := EmitAssets(ctx, [Users(now)]);
  }

  method CheckSchemaChanges(ctx: Context, now: Time) returns (ok: bool)
    modifies ctx
    ensures var n := Min(1, old(ctx.Budget()));
      && ok == (n == 1)
      && ctx.sent == old(ctx.sent) + AssetRecords([StatusColumn(now)])[..n]
      && ctx.Budget() == old(ctx.Budget()) - n
    ensures ctx.connected == old(ctx.connected)
    ensures ctx.log == old(ctx.log) + [Info("postgres checking for schema changes")]
  {
    ctx.LogInfo("postgres checking for schema changes");
    ok := EmitAssets(ctx, [StatusColumn(now)]);
  }

  class Connector {
    const kind: string := "postgres"
    const name: string := "PostgreSQL"
    /** Milliseconds between timer firings. */
    const pollInterval: nat := 45000
    var isPolling: bool
    var pollTimer: Option<Handle>

    /** A timer is installed exactly while a poll is running. */
    predicate Valid()
      reads this
    {
      isPolling <==> pollTimer.Some?
    }

    constructor()
      ensures Valid()
      ensures !isPolling && pollTimer == None
    {
      isPolling := false;
      pollTimer := None;
    }

    /** `init` only logs. */
    method Init(ctx: Context)
      modifies ctx
      ensures ctx.sent == old(ctx.sent) && ctx.Budget() == old(ctx.Budget()) && ctx.connected == old(ctx.connected)
      ensures ctx.log == old(ctx.log) + [Info("postgres init")]
    {
      ctx.LogInfo("postgres init");
    }

    /** Emits the sample table and no lineage; false when the send failed, which throws. */
    method Discover(ctx: Context, now: Time) returns (ok: bool)
      modifies ctx
      ensures var n := Min(1, old(ctx.Budget()));
        && ok == (n == 1)
        && ctx.sent == old(ctx.sent) + DiscoverRecords(now)[..n]
        && ctx.Budget() == old(ctx.Budget()) - n
      ensures ctx.connected == old(ctx.connected)
      ensures ctx.log == old(ctx.log) + [Info("postgres discover")]
    {
      ctx.LogInfo("postgres discover");
      ok := ctx.EmitAsset(SampleTable(now));
    }

    /** One poll cycle. A failed send skips the remaining check; the error is
        logged and never escapes. */
    method PerformPoll(ctx: Context, now: Time)
      modifies ctx
      ensures var n := Min(2, old(ctx.Budget()));
        && ctx.sent == old(ctx.sent) + PollRecords(now)[..n]
        && ctx.Budget() == old(ctx.Budget()) - n
        && |ctx.log| > |old(ctx.log)| && ctx.log[..|old(ctx.log)|] == old(ctx.log)
        && ctx.log[|ctx.log| - 1]
           == (if n == 2 then Info("postgres poll completed successfully") else Error("Error in postgres performPoll"))
      ensures ctx.connected == old(ctx.connected)
    {
      ghost var budget := ctx.Budget();
      ghost var log0 := ctx.log;
      PrefixThenPrefix(AssetRecords([Users(now)]), AssetRecords([StatusColumn(now)]), budget);
      ctx.LogInfo("postgres performing poll");
      var ok := CheckNewTables(ctx, now);
      if ok {
        ok := CheckSchemaChanges(ctx, now);
      }
      if ok {
        ctx.LogInfo("postgres poll completed successfully");
      } else {
        ctx.LogError("Error in postgres performPoll");
      }
      assert ctx.log[..|log0|] == log0;
    }

    /** `poll`: a no-op while a poll is running; otherwise installs the interval
        timer `handle` and runs the first cycle. */
    method Poll(ctx: Context, handle: Handle, now: Time)
      requires Valid()
      modifies this, ctx
      ensures Valid()
      ensures old(isPolling) ==>
                && isPolling && pollTimer == old(pollTimer)
                && ctx.sent == old(ctx.sent) && ctx.Budget() == old(ctx.Budget())
                && ctx.log == old(ctx.log) + [Info("postgres poll already running, skipping")]
      ensures !old(isPolling) ==>
                var n := Min(2, old(ctx.Budget()));
                && isPolling && pollTimer == Some(handle)
                && ctx.sent == old(ctx.sent) + PollRecords(now)[..n]
                && ctx.Budget() == old(ctx.Budget()) - n
                && |ctx.log| > |old(ctx.log)| + 1
                && ctx.log[..|old(ctx.log)| + 1] == old(ctx.log) + [Info("postgres poll started")]
      ensures ctx.connected == old(ctx.connected)
    {
      if isPolling {
        ctx.LogInfo("postgres poll already running, skipping");
        return;
      }
      isPolling := true;
      ctx.LogInfo("postgres poll started");
      pollTimer := Some(handle);
      ghost var log1 := ctx.log;
      PerformPoll(ctx, now);
      assert ctx.log[..|log1|] == log1;
    }

    /** One firing of the interval timer. */
    method Tick(ctx: Context, now: Time)
      requires Valid()
      modifies ctx
      ensures ctx.connected == old(ctx.connected)
      ensures old(pollTimer).None? ==>
                ctx.sent == old(ctx.sent) && ctx.Budget() == old(ctx.Budget()) && ctx.log == old(ctx.log)
      ensures old(pollTimer).Some? ==>
                var n := Min(2, old(ctx.Budget()));
                && ctx.sent == old(ctx.sent) + PollRecords(now)[..n]
                && ctx.Budget() == old(ctx.Budget()) - n
                && |ctx.log| > |old(ctx.log)| && ctx.log[..|old(ctx.log)|] == old(ctx.log)
                && ctx.log[|ctx.log| - 1]
                   == (if n == 2 then Info("postgres poll completed successfully") else Error("Error in postgres performPoll"))
    {
      if pollTimer.Some? {
        PerformPoll(ctx, now);
      }
    }

    /** `shutdown`: clears the timer and the polling flag. */
    method Shutdown(ctx: Context)
      modifies this, ctx
      ensures Valid() && !isPolling && pollTimer == None
      ensures ctx.sent == old(ctx.sent) && ctx.Budget() == old(ctx.Budget()) && ctx.connected == old(ctx.connected)
      ensures ctx.log == old(ctx.log) + [Info("postgres shutdown started"), Info("postgres shutdown completed")]
    {
      ctx.LogInfo("postgres shutdown started");
      if pollTimer.Some? {
        pollTimer := None;
      }
      isPolling := false;
      ctx.LogInfo("postgres shutdown completed");
    }
  }

  // ---------------------------------------------------------------------------
  // Properties of the emitted metadata
  // ---------------------------------------------------------------------------

  /** `discover` sends exactly one message: the sample table, on the asset topic. */
  lemma DiscoverIsOneTable(now: Time)
    ensures var rs := DiscoverRecords(now);
      && |rs| == 1 && rs[0].topic == AssetsTopic && rs[0].key == "pg.public.sample_table"
      && rs[0].value == AssetPayload(SampleTable(now))
  {
  }

  /** The column asset of a poll cycle belongs to the discovered table: its id is
      the table's id followed by `.status`, and it sits in the same namespace and
      source system. */
  lemma StatusColumnExtendsTable(now: Time)
    ensures StatusColumn(now).assetId == SampleTable(now).assetId + "." + StatusColumn(now).name
    ensures StatusColumn(now).namespace == SampleTable(now).namespace
    ensures StatusColumn(now).sourceSystem == SampleTable(now).sourceSystem
  {
    assert "pg.public.sample_table" + "." + "status" == "pg.public.sample_table.status";
  }

  /** A poll cycle sends one TABLE asset and then one COLUMN asset, both on the asset topic. */
  lemma PollCycleShape(now: Time)
    ensures var rs := PollRecords(now);
      && |rs| == 2
      && rs[0].topic == AssetsTopic && rs[0].value.AssetPayload? && rs[0].value.asset.assetType == TABLE
      && rs[1].topic == AssetsTopic && rs[1].value.AssetPayload? && rs[1].value.asset.assetType == COLUMN
  {
  }
}
