/** The connectors' entry point (services/connectors/src/harness.ts): connect the
    producer, run the PostgreSQL connector and then the Tableau connector through
    `runConnector`, and disconnect. MySQL is never run. Any exception — a failed
    connect, or a failed send in a `discover` — rejects `main`, which exits the
    process; failed sends inside a poll cycle are swallowed by the connector.

    Each run performs the four phases of `runConnector` (services/connectors/src/sdk/runner.ts)
    on a connector that has all of them; the phase sequencing itself is the
    `Runner` module. */
module Harness {
  import opened Wrappers
  import opened ConnectorSdk
  import P = PostgresConnector
  import T = TableauConnector

  /** The six messages a run of the harness means to send, in order. */
  function Intended(now: Time): seq<Record> {
    (P.DiscoverRecords(now) + P.PollRecords(now)) + (T.DiscoverRecords(now) + T.PollRecords(now))
  }

  lemma IntendedLengths(now: Time)
    ensures |P.DiscoverRecords(now) + P.PollRecords(now)| == 3
    ensures |T.DiscoverRecords(now) + T.PollRecords(now)| == 3
    ensures Intended(now) == (P.DiscoverRecords(now) + P.PollRecords(now)) + (T.DiscoverRecords(now) + T.PollRecords(now))
  {
  }

  /** `runConnector(PostgresConnector, context)` from the connector's initial state.
      `ok` is false when `discover` threw. */
  method RunPostgres(ctx: Context, pg: P.Connector, handle: Handle, now: Time)
    returns (ok: bool, ghost lines: seq<LogEntry>)
    requires pg.Valid() && !pg.isPolling
    modifies ctx, pg
    ensures var b := old(ctx.Budget());
      && ok == (b >= 1)
      && ctx.sent == old(ctx.sent) + (P.DiscoverRecords(now) + P.PollRecords(now))[..Min(3, b)]
      && ctx.Budget() == b - Min(3, b)
    ensures ctx.connected == old(ctx.connected)
    ensures ctx.log == old(ctx.log) + lines && |lines| > 0
    ensures lines[0] == ConnectorStarting("PostgreSQL", "postgres")
    ensures ok ==> lines[|lines| - 1] == ConnectorFinished("PostgreSQL")
    ensures ok ==> pg.Valid() && !pg.isPolling && pg.pollTimer == None
  {
    ghost var b := ctx.Budget();
    ghost var log0 := ctx.log;
    PrefixThenPrefix(P.DiscoverRecords(now), P.PollRecords(now), b);
    ctx.Append(ConnectorStarting(pg.name, pg.kind));
    lines := [ConnectorStarting(pg.name, pg.kind)];
    pg.Init(ctx);
    ok := pg.Discover(ctx, now);
    if !ok {
      lines := ctx.log[|log0|..];
      assert ctx.log == log0 + lines;
      return;
    }
    pg.Poll(ctx, handle, now);
    pg.Shutdown(ctx);
    ctx.Append(ConnectorFinished(pg.name));
    lines := ctx.log[|log0|..];
    assert ctx.log == log0 + lines;
  }

  /** `runConnector(TableauConnector, context)` from the connector's initial state. */
  method RunTableau(ctx: Context, tab: T.Connector, handle: Handle, now: Time)
    returns (ok: bool, ghost lines: seq<LogEntry>)
    requires tab.Valid() && !tab.isPolling
    modifies ctx, tab
    ensures var b := old(ctx.Budget());
      && ok == (b >= 2)
      && ctx.sent == old(ctx.sent) + (T.DiscoverRecords(now) + T.PollRecords(now))[..Min(3, b)]
      && ctx.Budget() == b - Min(3, b)
    ensures ctx.connected == old(ctx.connected)
    ensures ctx.log == old(ctx.log) + lines && |lines| > 0
    ensures lines[0] == ConnectorStarting("Tableau", "tableau")
    ensures ok ==> lines[|lines| - 1] == ConnectorFinished("Tableau")
    ensures ok ==> tab.Valid() && !tab.isPolling && tab.pollTimer == None
  {
    ghost var b := ctx.Budget();
    ghost var log0 := ctx.log;
    PrefixThenPrefix(T.DiscoverRecords(now), T.PollRecords(now), b);
    ctx.Append(ConnectorStarting(tab.name, tab.kind));
    lines := [ConnectorStarting(tab.name, tab.kind)];
    tab.Init(ctx);
    ok := tab.Discover(ctx, now);
    if !ok {
      lines := ctx.log[|log0|..];
      assert ctx.log == log0 + lines;
      return;
    }
    tab.Poll(ctx, handle, now);
    tab.Shutdown(ctx);
    ctx.Append(ConnectorFinished(tab.name));
    lines := ctx.log[|log0|..];
    assert ctx.log == log0 + lines;
  }

  /** The two awaited `runConnector` calls of `main` on a connected producer; `ok`
      is false when one of them threw. */
  method RunBoth(ctx: Context, pgTimer: Handle, tabTimer: Handle, now: Time)
    returns (ok: bool, ghost tableauStart: nat)
    modifies ctx
    ensures var b := old(ctx.Budget());
      && ctx.sent == old(ctx.sent) + Intended(now)[..Min(6, b)]
      && ok == (b >= 5)
    ensures ctx.connected == old(ctx.connected)
    ensures ok ==>
              && |old(ctx.log)| < tableauStart < |ctx.log|
              && ctx.log[|old(ctx.log)|] == ConnectorStarting("PostgreSQL", "postgres")
              && ctx.log[tableauStart - 1] == ConnectorFinished("PostgreSQL")
              && ctx.log[tableauStart] == ConnectorStarting("Tableau", "tableau")
              && ctx.log[|ctx.log| - 1] == ConnectorFinished("Tableau")
  {
    tableauStart := 0;
    ghost var b := ctx.Budget();
    ghost var pgs := P.DiscoverRecords(now) + P.PollRecords(now);
    ghost var tabs := T.DiscoverRecords(now) + T.PollRecords(now);
    IntendedLengths(now);
    PrefixThenPrefix(pgs, tabs, b);
    var pg := new P.Connector();
    ghost var pgLines, tabLines;
    ok, pgLines := RunPostgres(ctx, pg, pgTimer, now);
    if !ok {
      return;
    }
    ghost var log0 := old(ctx.log);
    tableauStart := |ctx.log|;
    var tab := new T.Connector();
    ok, tabLines := RunTableau(ctx, tab, tabTimer, now);
    if ok {
      assert ctx.log == log0 + pgLines + tabLines;
      assert ctx.log[|log0|] == pgLines[0];
      assert ctx.log[tableauStart - 1] == pgLines[|pgLines| - 1];
      assert ctx.log[tableauStart] == tabLines[0];
    }
  }

  /** `main`. `brokerUp` says whether the broker can be reached and `accepting` how
      many sends it accepts; `completed` is false when `main` rejected. The messages
      sent are always a prefix of the six intended ones, cut where the broker
      stopped accepting. */
  method RunHarness(brokerUp: bool, accepting: nat, pgTimer: Handle, tabTimer: Handle, now: Time)
    returns (ctx: Context, completed: bool, ghost tableauStart: nat)
    ensures var b := if brokerUp then accepting else 0;
      ctx.sent == Intended(now)[..Min(6, b)]
    ensures completed == (brokerUp && accepting >= 5)
    ensures completed ==> !ctx.connected
    ensures !completed ==> ctx.connected == brokerUp
    ensures completed ==>
              && 0 < tableauStart < |ctx.log|
              && ctx.log[0] == ConnectorStarting("PostgreSQL", "postgres")
              && ctx.log[tableauStart - 1] == ConnectorFinished("PostgreSQL")
              && ctx.log[tableauStart] == ConnectorStarting("Tableau", "tableau")
              && ctx.log[|ctx.log| - 1] == ConnectorFinished("Tableau")
  {
    ctx := new Context(accepting);
    completed := false;
    tableauStart := 0;
    var up := ctx.Connect(brokerUp);
    if !up {
      return;
    }
    var ok;
    ok, tableauStart := RunBoth(ctx, pgTimer, tabTimer, now);
    if !ok {
      return;
    }
    ctx.Disconnect();
    completed := true;
  }
}
