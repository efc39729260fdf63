/** The audit routes of the governance service: the three listing routes
    (`/audit/events`, `/audit/events/entity/:entityType/:entityId`,
    `/audit/events/user/:userId`), `/audit/summary` and `/audit/export`. Each
    passes the Bearer gate, builds its filters through one schema, and asks the
    repository for rows. The database is a parameter: a function from the
    repository's filters to the rows it returns, each row a map from column name
    to cell as the driver hands it over (snake_case column names).

    Four places where the routes as written cannot do what they evidently mean
    to are modelled twice, selected by `Build`: as written, and corrected. */
module AuditRoutes {
  import opened Wrappers
  import opened Text
  import opened Seqs
  import Jwt
  import AuthRoutes
  import Repository

  /** Which reading of the routes: the code as written, or with the four
      corrections (date strings for the schema, an export-sized limit, a window
      count for `totalEvents`, snake_case column names for rows). */
  datatype Build = AsWritten | Corrected

  // ---------------------------------------------------------------------------
  // Bearer gate
  // ---------------------------------------------------------------------------

  /** What a route answers: 401 `Authorization required`, 403 `Insufficient
      permissions`, a thrown schema error naming the fields it rejected, or the
      route's own result. */
  datatype Reply<T> = Unauthorized | Forbidden | Invalid(issues: seq<string>) | Ok(body: T)

  predicate IsBearer(header: Option<string>) {
    header.Some? && StartsWith(header.value, "Bearer ")
  }

  /** The gate's outcome decides the reply before anything else runs. */
  function Gated<T>(g: AuthRoutes.Gate, body: Reply<T>): Reply<T> {
    match g
    case NoBearer => Unauthorized
    case Forbidden => Forbidden
    case Allowed(_) => body
  }

  /** The gate of every listing route and of the summary: `audit:read`. */
  function ReadGate(header: Option<string>, verify: Jwt.Verifier): AuthRoutes.Gate {
    AuthRoutes.Authorize(header, verify, "audit", "read")
  }

  /** The gate of the export: `audit:export`. */
  function ExportGate(header: Option<string>, verify: Jwt.Verifier): AuthRoutes.Gate {
    AuthRoutes.Authorize(header, verify, "audit", "export")
  }

  // ---------------------------------------------------------------------------
  // The filter schema
  // ---------------------------------------------------------------------------

  /** The JavaScript values the routes hand to the schema. */
  datatype JsValue = Undefined | JsStr(s: string) | JsNum(n: int) | JsNaN | JsDate(t: int)

  /** `Number(s)`: None stands for NaN. */
  type NumberOf = string -> Option<int>

  /** `new Date(s)`, as an instant. */
  type DateOf = string -> int

  /** The object given to `auditFiltersSchema.parse`. */
  datatype SchemaInput = SchemaInput(entityType: JsValue, entityId: JsValue, actorUserId: JsValue,
                                     startDate: JsValue, endDate: JsValue, limit: JsValue, offset: JsValue)

  /** What the schema returns: dates stay strings, limit and offset have their defaults. */
  datatype Filters = Filters(entityType: Option<string>, entityId: Option<string>,
                             actorUserId: Option<int>, startDate: Option<string>,
                             endDate: Option<string>, limit: int, offset: int)

  const MaxLimit: int := 1000
  const DefaultLimit: int := 100
  const ExportLimit: int := 10000

  /** `z.string().optional()`. */
  predicate OptionalString(v: JsValue) { v.Undefined? || v.JsStr? }

  /** `z.number().optional()`: NaN is not a number to the schema. */
  predicate OptionalNumber(v: JsValue) { v.Undefined? || v.JsNum? }

  /** `.default(d)`: undefined becomes d before the checks run. */
  function Defaulted(v: JsValue, d: int): JsValue {
    if v.Undefined? then JsNum(d) else v
  }

  /** `z.number().min(lo).max(hi)`, and without `max` when hi is None. */
  predicate InRange(v: JsValue, lo: int, hi: Option<int>) {
    v.JsNum? && lo <= v.n && (hi.None? || v.n <= hi.value)
  }

  /** The fields the schema rejects, in declaration order. */
  function Issues(input: SchemaInput, maxLimit: int): seq<string> {
    (if OptionalString(input.entityType) then [] else ["entityType"])
    + (if OptionalString(input.entityId) then [] else ["entityId"])
    + (if OptionalNumber(input.actorUserId) then [] else ["actorUserId"])
    + (if OptionalString(input.startDate) then [] else ["startDate"])
    + (if OptionalString(input.endDate) then [] else ["endDate"])
    + (if InRange(Defaulted(input.limit, DefaultLimit), 1, Some(maxLimit)) then [] else ["limit"])
    + (if InRange(Defaulted(input.offset, 0), 0, None) then [] else ["offset"])
  }

  function StringOf(v: JsValue): Option<string> {
    if v.JsStr? then Some(v.s) else None
  }

  /** `auditFiltersSchema.parse(input)`, with the limit's maximum as a parameter
      (1000 in the source). */
  function ParseFilters(input: SchemaInput, maxLimit: int): (r: Result<Filters, seq<string>>)
    ensures r.Success? <==>
              && OptionalString(input.entityType) && OptionalString(input.entityId)
              && OptionalNumber(input.actorUserId)
              && OptionalString(input.startDate) && OptionalString(input.endDate)
              && InRange(Defaulted(input.limit, DefaultLimit), 1, Some(maxLimit))
              && InRange(Defaulted(input.offset, 0), 0, None)
    ensures r.Success? ==> 1 <= r.value.limit <= maxLimit && 0 <= r.value.offset
    ensures r.Success? ==>
              && r.value.limit == (if input.limit.Undefined? then DefaultLimit else input.limit.n)
              && r.value.offset == (if input.offset.Undefined? then 0 else input.offset.n)
              && r.value.entityType == StringOf(input.entityType)
              && r.value.startDate == StringOf(input.startDate)
    ensures r.Failure? ==> r.error != []
    ensures r.Failure? && !InRange(Defaulted(input.limit, DefaultLimit), 1, Some(maxLimit)) ==> "limit" in r.error
    ensures r.Failure? && !OptionalString(input.startDate) ==> "startDate" in r.error
  {
    var issues := Issues(input, maxLimit);
    if issues != [] then Failure(issues)
    else
      Success(Filters(StringOf(input.entityType), StringOf(input.entityId),
                      if input.actorUserId.JsNum? then Some(input.actorUserId.n) else None,
                      StringOf(input.startDate), StringOf(input.endDate),
                      Defaulted(input.limit, DefaultLimit).n, Defaulted(input.offset, 0).n))
  }

  // ---------------------------------------------------------------------------
  // The listing routes
  // ---------------------------------------------------------------------------

  /** `query.k ? ... : ...`: the parameter is present and not empty. */
  predicate Given(query: map<string, string>, k: string) {
    k in query && query[k] != ""
  }

  /** A query parameter as spread into the schema input by `...query`. */
  function Raw(query: map<string, string>, k: string): JsValue {
    if k in query then JsStr(query[k]) else Undefined
  }

  function NumberValue(s: string, number: NumberOf): JsValue {
    match number(s)
    case Some(n) => JsNum(n)
    case None => JsNaN
  }

  /** A numeric query parameter with its fallback. */
  function NumberParam(query: map<string, string>, k: string, number: NumberOf, fallback: JsValue): JsValue {
    if Given(query, k) then NumberValue(query[k], number) else fallback
  }

  /** A date query parameter: as written, a `Date` object; corrected, the string. */
  function DateParam(query: map<string, string>, k: string, dateOf: DateOf, build: Build): JsValue {
    if !Given(query, k) then Undefined
    else if build == AsWritten then JsDate(dateOf(query[k]))
    else JsStr(query[k])
  }

  /** The input of `/audit/events`. */
  function EventsInput(query: map<string, string>, number: NumberOf, dateOf: DateOf, build: Build): SchemaInput {
    SchemaInput(Raw(query, "entityType"), Raw(query, "entityId"),
                NumberParam(query, "actorUserId", number, Undefined),
                DateParam(query, "startDate", dateOf, build), DateParam(query, "endDate", dateOf, build),
                NumberParam(query, "limit", number, JsNum(DefaultLimit)),
                NumberParam(query, "offset", number, JsNum(0)))
  }

  /** The input of `/audit/events/entity/:entityType/:entityId`. */
  function EntityInput(entityType: string, entityId: string, query: map<string, string>,
                       number: NumberOf, dateOf: DateOf, build: Build): SchemaInput {
    SchemaInput(JsStr(entityType), JsStr(entityId), Undefined,
                DateParam(query, "startDate", dateOf, build), DateParam(query, "endDate", dateOf, build),
                NumberParam(query, "limit", number, JsNum(DefaultLimit)),
                NumberParam(query, "offset", number, JsNum(0)))
  }

  /** The input of `/audit/events/user/:userId`. */
  function UserInput(userId: string, query: map<string, string>, number: NumberOf, dateOf: DateOf,
                     build: Build): SchemaInput {
    SchemaInput(Undefined, Undefined, NumberValue(userId, number),
                DateParam(query, "startDate", dateOf, build), DateParam(query, "endDate", dateOf, build),
                NumberParam(query, "limit", number, JsNum(DefaultLimit)),
                NumberParam(query, "offset", number, JsNum(0)))
  }

  /** A truthy date string becomes a `Date`; limit and offset are always set. */
  function RepositoryFilters(p: Filters, dateOf: DateOf): Repository.AuditFilters {
    Repository.AuditFilters(
      p.entityType, p.entityId, p.actorUserId,
      if p.startDate.Some? && p.startDate.value != "" then Some(dateOf(p.startDate.value)) else None,
      if p.endDate.Some? && p.endDate.value != "" then Some(dateOf(p.endDate.value)) else None,
      Some(p.limit), Some(p.offset))
  }

  /** A listing route: gate on `audit:read`, parse, and query the repository with
      the resulting filters (the reply's body). */
  function ListRoute(header: Option<string>, verify: Jwt.Verifier, input: SchemaInput, dateOf: DateOf)
    : (r: Reply<Repository.AuditFilters>)
    ensures r.Unauthorized? <==> !IsBearer(header)
    ensures r.Forbidden? <==> ReadGate(header, verify).Forbidden?
    ensures r.Ok? ==> ReadGate(header, verify).Allowed?
    ensures r.Ok? ==> && r.body.limit.Some? && 1 <= r.body.limit.value <= MaxLimit
                      && r.body.offset.Some? && 0 <= r.body.offset.value
    ensures ReadGate(header, verify).Allowed? ==> (r.Invalid? <==> ParseFilters(input, MaxLimit).Failure?)
  {
    Gated(ReadGate(header, verify),
          match ParseFilters(input, MaxLimit)
          case Failure(issues) => Invalid(issues)
          case Success(p) => Ok(RepositoryFilters(p, dateOf)))
  }

  /** Without a Bearer header the answer is 401, whatever the token verifier and
      the query: no token is looked at. */
  lemma UnauthorizedBeforeTokenCheck(header: Option<string>, v1: Jwt.Verifier, v2: Jwt.Verifier,
                                     i1: SchemaInput, i2: SchemaInput, dateOf: DateOf)
    requires !IsBearer(header)
    ensures ListRoute(header, v1, i1, dateOf) == ListRoute(header, v2, i2, dateOf) == Unauthorized
  {
  }

  /** With no query parameters the listing asks for the newest 100 events. */
  lemma EventsDefaults(header: Option<string>, verify: Jwt.Verifier, number: NumberOf, dateOf: DateOf, build: Build)
    requires ReadGate(header, verify).Allowed?
    ensures ListRoute(header, verify, EventsInput(map[], number, dateOf, build), dateOf)
            == Ok(Repository.AuditFilters(None, None, None, None, None, Some(DefaultLimit), Some(0)))
  {
  }

  /** A limit above 1000, or below 1, is rejected by the schema. */
  lemma LimitOutOfRangeRejected(header: Option<string>, verify: Jwt.Verifier, query: map<string, string>,
                                number: NumberOf, dateOf: DateOf, build: Build)
    requires ReadGate(header, verify).Allowed?
    requires Given(query, "limit") && number(query["limit"]).Some?
    requires !(1 <= number(query["limit"]).value <= MaxLimit)
    ensures ListRoute(header, verify, EventsInput(query, number, dateOf, build), dateOf).Invalid?
  {
  }

  /** A limit that is not a number (NaN) is rejected too. */
  lemma LimitNaNRejected(header: Option<string>, verify: Jwt.Verifier, query: map<string, string>,
                         number: NumberOf, dateOf: DateOf, build: Build)
    requires ReadGate(header, verify).Allowed?
    requires Given(query, "limit") && number(query["limit"]).None?
    ensures ListRoute(header, verify, EventsInput(query, number, dateOf, build), dateOf).Invalid?
  {
  }

  /** The entity route filters on exactly the path's entity type and id. */
  lemma EntityRouteFilters(header: Option<string>, verify: Jwt.Verifier, entityType: string, entityId: string,
                           number: NumberOf, dateOf: DateOf, build: Build)
    requires ReadGate(header, verify).Allowed?
    ensures ListRoute(header, verify, EntityInput(entityType, entityId, map[], number, dateOf, build), dateOf)
            == Ok(Repository.AuditFilters(Some(entityType), Some(entityId), None, None, None,
                                          Some(DefaultLimit), Some(0)))
  {
  }

  /** The user route filters on the path's user id, and rejects one that is not
      a number. */
  lemma UserRouteFilters(header: Option<string>, verify: Jwt.Verifier, userId: string,
                         number: NumberOf, dateOf: DateOf, build: Build)
    requires ReadGate(header, verify).Allowed?
    ensures var r := ListRoute(header, verify, UserInput(userId, map[], number, dateOf, build), dateOf);
      && (number(userId).None? ==> r == Invalid(["actorUserId"]))
      && (number(userId).Some? ==>
            r == Ok(Repository.AuditFilters(None, None, Some(number(userId).value), None, None,
                                            Some(DefaultLimit), Some(0))))
  {
  }

  /** As written, any date parameter reaches the schema as a `Date` object where
      it expects a string, so every dated listing is rejected. */
  lemma DatesRejectedAsWritten(header: Option<string>, verify: Jwt.Verifier, query: map<string, string>,
                               number: NumberOf, dateOf: DateOf)
    requires ReadGate(header, verify).Allowed? && Given(query, "startDate")
    ensures var r := ListRoute(header, verify, EventsInput(query, number, dateOf, AsWritten), dateOf);
      r.Invalid? && "startDate" in r.issues
  {
  }

  /** Corrected, the date string passes the schema and becomes the query's lower bound. */
  lemma DatesQueriedCorrected(header: Option<string>, verify: Jwt.Verifier, query: map<string, string>,
                              number: NumberOf, dateOf: DateOf)
    requires ReadGate(header, verify).Allowed? && Given(query, "startDate")
    requires !Given(query, "actorUserId") && !Given(query, "limit") && !Given(query, "offset")
    ensures var r := ListRoute(header, verify, EventsInput(query, number, dateOf, Corrected), dateOf);
      r.Ok? && r.body.startDate == Some(dateOf(query["startDate"]))
  {
  }

  // ---------------------------------------------------------------------------
  // Rows and their JavaScript rendering
  // ---------------------------------------------------------------------------

  /** A cell as the driver returns it: SQL NULL, a number, a string, a timestamp. */
  datatype Cell = Null | Num(n: int) | Str(s: string) | Time(t: int)

  type Row = map<string, Cell>

  /** `String(date)` for a timestamp. */
  type DateText = int -> string

  /** `row.column`: undefined when the row has no such property. */
  function Get(row: Row, column: string): Option<Cell> {
    if column in row then Some(row[column]) else None
  }

  /** `${v}` and `String(v)`, which is also how a value becomes a property key. */
  function JsText(v: Option<Cell>, dt: DateText): string {
    match v
    case None => "undefined"
    case Some(Null) => "null"
    case Some(Num(n)) => IntToString(n)
    case Some(Str(s)) => s
    case Some(Time(t)) => dt(t)
  }

  predicate Truthy(v: Option<Cell>) {
    match v
    case None => false
    case Some(Null) => false
    case Some(Num(n)) => n != 0
    case Some(Str(s)) => s != ""
    case Some(Time(_)) => true
  }

  /** `${v || ''}`. */
  function OrEmpty(v: Option<Cell>, dt: DateText): string {
    if Truthy(v) then JsText(v, dt) else ""
  }

  /** The property names the routes read, in CSV column order: as written
      (camelCase) and as the rows carry them (snake_case). */
  const CamelColumns: seq<string> := ["id", "actorUserId", "action", "entityType", "entityId",
                                      "resourceType", "resourceId", "ipAddress", "userAgent", "createdAt"]
  const SnakeColumns: seq<string> := ["id", "actor_user_id", "action", "entity_type", "entity_id",
                                      "resource_type", "resource_id", "ip_address", "user_agent", "created_at"]

  function Columns(build: Build): (cols: seq<string>)
    ensures |cols| == 10
  {
    if build == AsWritten then CamelColumns else SnakeColumns
  }

  /** Rows as the database returns them: no camelCase entity-type property. */
  ghost predicate DatabaseRows(rows: seq<Row>) {
    forall i :: 0 <= i < |rows| ==> CamelColumns[3] !in rows[i]
  }

  // ---------------------------------------------------------------------------
  // Summary counts
  // ---------------------------------------------------------------------------

  /** A JavaScript object used as a counter: keys in insertion order. */
  type Counts = seq<(string, nat)>

  function CountNames(t: Counts): seq<string> {
    seq(|t|, i requires 0 <= i < |t| => t[i].0)
  }

  /** `acc[k] = (acc[k] || 0) + 1`: an existing key keeps its place, a new key goes last. */
  function Bump(acc: Counts, k: string): Counts {
    if acc == [] then [(k, 1)]
    else if acc[0].0 == k then [(k, acc[0].1 + 1)] + acc[1..]
    else [acc[0]] + Bump(acc[1..], k)
  }

  /** `keys.reduce((acc, k) => { acc[k] = (acc[k] || 0) + 1; return acc }, {})`. */
  function Tally(keys: seq<string>): Counts
    decreases |keys|
  {
    if keys == [] then [] else Bump(Tally(keys[..|keys| - 1]), keys[|keys| - 1])
  }

  /** The sum of the counts. */
  function Total(t: Counts): nat {
    if t == [] then 0 else t[0].1 + Total(t[1..])
  }

  /** On a counter with distinct keys, Bump adds one to k's count or appends k with 1. */
  lemma BumpShape(acc: Counts, k: string)
    requires NoDup(CountNames(acc))
    ensures k in CountNames(acc) ==>
              |Bump(acc, k)| == |acc|
              && forall j :: 0 <= j < |acc| ==>
                   Bump(acc, k)[j] == (acc[j].0, acc[j].1 + (if acc[j].0 == k then 1 else 0))
    ensures k !in CountNames(acc) ==> Bump(acc, k) == acc + [(k, 1)]
  {
    if k in CountNames(acc) {
      BumpFound(acc, k);
    } else {
      BumpNew(acc, k);
    }
  }

  lemma {:induction false} BumpNew(acc: Counts, k: string)
    requires k !in CountNames(acc)
    ensures Bump(acc, k) == acc + [(k, 1)]
  {
    if acc != [] {
      assert CountNames(acc)[0] == acc[0].0;
      assert CountNames(acc[1..]) == CountNames(acc)[1..];
      BumpNew(acc[1..], k);
      assert [acc[0]] + (acc[1..] + [(k, 1)]) == acc + [(k, 1)];
    }
  }

  lemma {:induction false} BumpFound(acc: Counts, k: string)
    requires NoDup(CountNames(acc)) && k in CountNames(acc)
    ensures |Bump(acc, k)| == |acc|
    ensures forall j :: 0 <= j < |acc| ==>
              Bump(acc, k)[j] == (acc[j].0, acc[j].1 + (if acc[j].0 == k then 1 else 0))
  {
    var names := CountNames(acc);
    if acc[0].0 == k {
      forall j | 1 <= j < |acc| ensures acc[j].0 != k {
        assert names[j] == acc[j].0 && names[0] == k;
      }
    } else {
      var rest := acc[1..];
      assert CountNames(rest) == names[1..];
      assert names[0] != k;
      BumpFound(rest, k);
      var r := Bump(acc, k);
      assert r == [acc[0]] + Bump(rest, k);
      forall j | 1 <= j < |acc|
        ensures r[j] == (acc[j].0, acc[j].1 + (if acc[j].0 == k then 1 else 0))
      {
        assert r[j] == Bump(rest, k)[j - 1] && rest[j - 1] == acc[j];
      }
    }
  }

  lemma {:induction false} TotalBump(acc: Counts, k: string)
    ensures Total(Bump(acc, k)) == Total(acc) + 1
  {
    if acc != [] && acc[0].0 != k {
      TotalBump(acc[1..], k);
    }
  }

  /** The counter lists each distinct key once, in order of first appearance, with
      its number of occurrences; the counts add up to the number of keys. */
  lemma TallyFacts(keys: seq<string>)
    ensures CountNames(Tally(keys)) == Distinct(keys)
    ensures forall j :: 0 <= j < |Tally(keys)| ==> Tally(keys)[j].1 == multiset(keys)[Tally(keys)[j].0]
    ensures Total(Tally(keys)) == |keys|
  {
    TallyNames(keys);
    TallyCounts(keys);
    TallyTotal(keys);
  }

  lemma {:induction false} TallyNames(keys: seq<string>)
    ensures CountNames(Tally(keys)) == Distinct(keys)
    decreases |keys|
  {
    if keys != [] {
      var init, k := keys[..|keys| - 1], keys[|keys| - 1];
      assert keys == init + [k];
      TallyNames(init);
      var t := Tally(init);
      DistinctNoDup(init);
      DistinctSnoc(init, k);
      DistinctElements(init, k);
      BumpShape(t, k);
      var t' := Bump(t, k);
      assert t' == Tally(keys);
      if k in init {
        assert CountNames(t') == CountNames(t);
      } else {
        assert CountNames(t') == CountNames(t) + [k];
      }
    }
  }

  lemma {:induction false} TallyCounts(keys: seq<string>)
    ensures forall j :: 0 <= j < |Tally(keys)| ==> Tally(keys)[j].1 == multiset(keys)[Tally(keys)[j].0]
    decreases |keys|
  {
    if keys != [] {
      var init, k := keys[..|keys| - 1], keys[|keys| - 1];
      assert keys == init + [k];
      TallyCounts(init);
      TallyNames(init);
      var t := Tally(init);
      DistinctNoDup(init);
      DistinctElements(init, k);
      BumpShape(t, k);
      var t' := Bump(t, k);
      assert t' == Tally(keys);
      assert multiset(keys) == multiset(init) + multiset{k};
      if k !in init {
        forall j | 0 <= j < |t| ensures t[j].0 != k {
          assert CountNames(t)[j] == t[j].0;
          DistinctElements(init, t[j].0);
        }
        assert t'[|t|] == (k, 1);
      }
    }
  }

  lemma {:induction false} TallyTotal(keys: seq<string>)
    ensures Total(Tally(keys)) == |keys|
    decreases |keys|
  {
    if keys != [] {
      var init, k := keys[..|keys| - 1], keys[|keys| - 1];
      TallyTotal(init);
      TotalBump(Tally(init), k);
    }
  }

  /** Every count is at least 1, and the keys are distinct. */
  lemma TallyPositive(keys: seq<string>)
    ensures forall j :: 0 <= j < |Tally(keys)| ==> Tally(keys)[j].1 >= 1
    ensures NoDup(CountNames(Tally(keys)))
  {
    TallyFacts(keys);
    DistinctNoDup(keys);
    forall j | 0 <= j < |Tally(keys)| ensures Tally(keys)[j].1 >= 1 {
      assert CountNames(Tally(keys))[j] == Tally(keys)[j].0;
      DistinctElements(keys, Tally(keys)[j].0);
    }
  }

  /** Keys that are all the same collapse into one entry. */
  lemma {:induction false} TallySame(keys: seq<string>, k: string)
    requires keys != [] && forall i :: 0 <= i < |keys| ==> keys[i] == k
    ensures Tally(keys) == [(k, |keys|)]
    decreases |keys|
  {
    if |keys| > 1 {
      TallySame(keys[..|keys| - 1], k);
    }
  }

  /** The property each event contributes as a key. */
  function KeysOf(rows: seq<Row>, column: string, dt: DateText): (keys: seq<string>)
    ensures |keys| == |rows|
  {
    seq(|rows|, i requires 0 <= i < |rows| => JsText(Get(rows[i], column), dt))
  }

  // ---------------------------------------------------------------------------
  // /audit/summary
  // ---------------------------------------------------------------------------

  /** The database: the rows `getAuditEvents(filters)` returns. */
  type Fetch = Repository.AuditFilters -> seq<Row>

  const ThirtyDays: int := 30 * 24 * 60 * 60 * 1000

  /** `{ startDate, endDate, limit }`. */
  function Window(start: int, end: int, limit: Option<int>): Repository.AuditFilters {
    Repository.AuditFilters(None, None, None, Some(start), Some(end), limit, None)
  }

  /** LIMIT n returns the first n rows of the unlimited, newest-first result. */
  ghost predicate LimitTakesPrefix(fetch: Fetch, start: int, end: int) {
    var all := fetch(Window(start, end, None));
    && fetch(Window(start, end, Some(1))) == all[..if |all| < 1 then |all| else 1]
    && fetch(Window(start, end, Some(MaxLimit))) == all[..if |all| < MaxLimit then |all| else MaxLimit]
  }

  datatype AuditSummary = AuditSummary(startDate: int, endDate: int, totalEvents: nat,
                                       actionBreakdown: Counts, entityBreakdown: Counts)

  function SummaryStart(query: map<string, string>, dateOf: DateOf, now: int): int {
    if Given(query, "startDate") then dateOf(query["startDate"]) else now - ThirtyDays
  }

  function SummaryEnd(query: map<string, string>, dateOf: DateOf, now: int): int {
    if Given(query, "endDate") then dateOf(query["endDate"]) else now
  }

  /** The events the breakdowns count: the newest 1000 in the window. */
  function Breakdown(query: map<string, string>, dateOf: DateOf, now: int, fetch: Fetch): seq<Row> {
    fetch(Window(SummaryStart(query, dateOf, now), SummaryEnd(query, dateOf, now), Some(MaxLimit)))
  }

  /** `totalEvents`: as written the length of a LIMIT 1 query; corrected, the
      number of events in the window. */
  function TotalEvents(start: int, end: int, fetch: Fetch, build: Build): nat {
    |fetch(Window(start, end, if build == AsWritten then Some(1) else None))|
  }

  function SummaryRoute(header: Option<string>, verify: Jwt.Verifier, query: map<string, string>,
                        dateOf: DateOf, now: int, fetch: Fetch, dt: DateText, build: Build)
    : (r: Reply<AuditSummary>)
    ensures r.Unauthorized? <==> !IsBearer(header)
    ensures r.Ok? <==> ReadGate(header, verify).Allowed?
  {
    var start := SummaryStart(query, dateOf, now);
    var end := SummaryEnd(query, dateOf, now);
    var events := Breakdown(query, dateOf, now, fetch);
    Gated(ReadGate(header, verify),
          Ok(AuditSummary(start, end, TotalEvents(start, end, fetch, build),
                          Tally(KeysOf(events, "action", dt)),
                          Tally(KeysOf(events, Columns(build)[3], dt)))))
  }

  /** Each breakdown lists every key once with its number of events; its counts
      are at least 1 and add up to the number of events fetched. */
  lemma SummaryCounts(header: Option<string>, verify: Jwt.Verifier, query: map<string, string>,
                      dateOf: DateOf, now: int, fetch: Fetch, dt: DateText, build: Build)
    requires ReadGate(header, verify).Allowed?
    ensures var s := SummaryRoute(header, verify, query, dateOf, now, fetch, dt, build).body;
      var events := Breakdown(query, dateOf, now, fetch);
      var actions := KeysOf(events, "action", dt);
      && Total(s.actionBreakdown) == |events| && Total(s.entityBreakdown) == |events|
      && NoDup(CountNames(s.actionBreakdown)) && NoDup(CountNames(s.entityBreakdown))
      && (forall j :: 0 <= j < |s.actionBreakdown| ==>
            1 <= s.actionBreakdown[j].1 == multiset(actions)[s.actionBreakdown[j].0])
      && (forall j :: 0 <= j < |s.entityBreakdown| ==> 1 <= s.entityBreakdown[j].1)
  {
    var events := Breakdown(query, dateOf, now, fetch);
    TallyFacts(KeysOf(events, "action", dt));
    TallyPositive(KeysOf(events, "action", dt));
    TallyFacts(KeysOf(events, Columns(build)[3], dt));
    TallyPositive(KeysOf(events, Columns(build)[3], dt));
  }

  /** Without date parameters the window is the last 30 days up to now. */
  lemma DefaultWindow(header: Option<string>, verify: Jwt.Verifier, query: map<string, string>,
                      dateOf: DateOf, now: int, fetch: Fetch, dt: DateText, build: Build)
    requires ReadGate(header, verify).Allowed?
    requires !Given(query, "startDate") && !Given(query, "endDate")
    ensures var s := SummaryRoute(header, verify, query, dateOf, now, fetch, dt, build).body;
      s.startDate == now - 30 * 24 * 60 * 60 * 1000 && s.endDate == now
  {
  }

  /** As written, `totalEvents` is 1 whenever the window holds any event, and
      never more. */
  lemma TotalAtMostOneAsWritten(start: int, end: int, fetch: Fetch)
    requires LimitTakesPrefix(fetch, start, end)
    ensures var all := fetch(Window(start, end, None));
      TotalEvents(start, end, fetch, AsWritten) == (if all == [] then 0 else 1)
  {
  }

  /** Corrected, `totalEvents` counts the window, and is never below what the
      breakdowns count. */
  lemma TotalCountsWindowCorrected(start: int, end: int, fetch: Fetch)
    requires LimitTakesPrefix(fetch, start, end)
    ensures TotalEvents(start, end, fetch, Corrected) == |fetch(Window(start, end, None))|
    ensures TotalEvents(start, end, fetch, Corrected) >= |fetch(Window(start, end, Some(MaxLimit)))|
  {
  }

  /** As written, the entity breakdown reads a property the rows do not have:
      every event is counted under the key "undefined". */
  lemma EntityBreakdownAsWritten(header: Option<string>, verify: Jwt.Verifier, query: map<string, string>,
                                 dateOf: DateOf, now: int, fetch: Fetch, dt: DateText)
    requires ReadGate(header, verify).Allowed?
    requires DatabaseRows(Breakdown(query, dateOf, now, fetch))
    ensures var s := SummaryRoute(header, verify, query, dateOf, now, fetch, dt, AsWritten).body;
      var events := Breakdown(query, dateOf, now, fetch);
      s.entityBreakdown == if events == [] then [] else [("undefined", |events|)]
  {
    var events := Breakdown(query, dateOf, now, fetch);
    var keys := KeysOf(events, CamelColumns[3], dt);
    if events != [] {
      TallySame(keys, "undefined");
    }
  }

  /** Corrected, the entity breakdown counts each entity type by its number of events. */
  lemma EntityBreakdownCorrected(header: Option<string>, verify: Jwt.Verifier, query: map<string, string>,
                                 dateOf: DateOf, now: int, fetch: Fetch, dt: DateText)
    requires ReadGate(header, verify).Allowed?
    ensures var s := SummaryRoute(header, verify, query, dateOf, now, fetch, dt, Corrected).body;
      var types := KeysOf(Breakdown(query, dateOf, now, fetch), "entity_type", dt);
      && CountNames(s.entityBreakdown) == Distinct(types)
      && forall j :: 0 <= j < |s.entityBreakdown| ==>
           s.entityBreakdown[j].1 == multiset(types)[s.entityBreakdown[j].0]
  {
    TallyFacts(KeysOf(Breakdown(query, dateOf, now, fetch), "entity_type", dt));
  }

  // ---------------------------------------------------------------------------
  // /audit/export
  // ---------------------------------------------------------------------------

  const CsvTitles: seq<string> := ["ID", "Actor User ID", "Action", "Entity Type", "Entity ID",
                                   "Resource Type", "Resource ID", "IP Address", "User Agent", "Created At"]

  const CsvHeader: string := Join(CsvTitles, ",") + "\n"

  function Quote(s: string): string {
    "\"" + s + "\""
  }

  /** The ten fields of one event's line, read from the given property names. */
  function CsvFields(row: Row, cols: seq<string>, dt: DateText): (fields: seq<string>)
    requires |cols| == 10
    ensures |fields| == |CsvTitles|
  {
    [JsText(Get(row, cols[0]), dt), OrEmpty(Get(row, cols[1]), dt),
     Quote(JsText(Get(row, cols[2]), dt)), Quote(JsText(Get(row, cols[3]), dt)),
     Quote(JsText(Get(row, cols[4]), dt)), Quote(OrEmpty(Get(row, cols[5]), dt)),
     Quote(OrEmpty(Get(row, cols[6]), dt)), Quote(OrEmpty(Get(row, cols[7]), dt)),
     Quote(OrEmpty(Get(row, cols[8]), dt)), Quote(JsText(Get(row, cols[9]), dt))]
  }

  function CsvLine(row: Row, cols: seq<string>, dt: DateText): string
    requires |cols| == 10
  {
    Join(CsvFields(row, cols, dt), ",")
  }

  function CsvLines(rows: seq<Row>, cols: seq<string>, dt: DateText): (lines: seq<string>)
    requires |cols| == 10
    ensures |lines| == |rows|
  {
    seq(|rows|, i requires 0 <= i < |rows| => CsvLine(rows[i], cols, dt))
  }

  /** The header, then one line per event joined by line breaks. */
  function CsvExport(rows: seq<Row>, cols: seq<string>, dt: DateText): string
    requires |cols| == 10
  {
    CsvHeader + Join(CsvLines(rows, cols, dt), "\n")
  }

  /** The export's input: the query's filters with the export's fixed limit. */
  function ExportInput(query: map<string, string>, number: NumberOf, dateOf: DateOf, build: Build): SchemaInput {
    EventsInput(query, number, dateOf, build).(limit := JsNum(ExportLimit), offset := JsNum(0))
  }

  /** The export schema's maximum limit: the listing's as written, the export's own corrected. */
  function ExportMax(build: Build): int {
    if build == AsWritten then MaxLimit else ExportLimit
  }

  function ExportRoute(header: Option<string>, verify: Jwt.Verifier, query: map<string, string>,
                       number: NumberOf, dateOf: DateOf, fetch: Fetch, dt: DateText, build: Build)
    : (r: Reply<string>)
    ensures r.Unauthorized? <==> !IsBearer(header)
    ensures r.Forbidden? <==> ExportGate(header, verify).Forbidden?
  {
    Gated(ExportGate(header, verify),
          match ParseFilters(ExportInput(query, number, dateOf, build), ExportMax(build))
          case Failure(issues) => Invalid(issues)
          case Success(p) => Ok(CsvExport(fetch(RepositoryFilters(p, dateOf)), Columns(build), dt)))
  }

  /** Of the issued roles, only ADMIN passes the export gate. */
  lemma ExportGateAdminOnly(header: Option<string>, verify: Jwt.Verifier, userId: int, email: string,
                            roles: seq<string>)
    requires IsBearer(header)
    requires verify(header.value[7..]) ==
             Some(Jwt.JwtPayload(userId, email, roles, AuthRoutes.PermissionsFromRoles(roles)))
    ensures ExportGate(header, verify).Allowed? <==> "ADMIN" in roles
  {
    AuthRoutes.OnlyAdminExportsOrCreatesUsers(userId, roles);
  }

  /** As written, the export's limit of 10000 exceeds the schema's maximum of
      1000, so every export that passes the gate is rejected. */
  lemma ExportRejectedAsWritten(header: Option<string>, verify: Jwt.Verifier, query: map<string, string>,
                                number: NumberOf, dateOf: DateOf, fetch: Fetch, dt: DateText)
    requires ExportGate(header, verify).Allowed?
    ensures var r := ExportRoute(header, verify, query, number, dateOf, fetch, dt, AsWritten);
      r.Invalid? && "limit" in r.issues
  {
  }

  /** Corrected, an export with a well-formed query returns the CSV of up to
      10000 matching events from the start. */
  lemma ExportQueriesCorrected(header: Option<string>, verify: Jwt.Verifier, query: map<string, string>,
                               number: NumberOf, dateOf: DateOf, fetch: Fetch, dt: DateText)
    requires ExportGate(header, verify).Allowed?
    requires !Given(query, "actorUserId") || number(query["actorUserId"]).Some?
    ensures var r := ExportRoute(header, verify, query, number, dateOf, fetch, dt, Corrected);
      exists f: Repository.AuditFilters ::
        && f.limit == Some(ExportLimit) && f.offset == Some(0)
        && f.startDate == (if Given(query, "startDate") then Some(dateOf(query["startDate"])) else None)
        && r == Ok(CsvExport(fetch(f), SnakeColumns, dt))
  {
    var input := ExportInput(query, number, dateOf, Corrected);
    var p := ParseFilters(input, ExportLimit).value;
    var f := RepositoryFilters(p, dateOf);
    assert ExportRoute(header, verify, query, number, dateOf, fetch, dt, Corrected)
           == Ok(CsvExport(fetch(f), SnakeColumns, dt));
  }

  /** As written, the entity columns of every line read properties the rows do
      not have and print "undefined". */
  lemma CsvEntityColumnsAsWritten(row: Row, dt: DateText)
    requires CamelColumns[3] !in row && CamelColumns[4] !in row
    ensures CsvFields(row, CamelColumns, dt)[3] == Quote("undefined")
    ensures CsvFields(row, CamelColumns, dt)[4] == Quote("undefined")
  {
  }

  /** Corrected, the entity columns print the row's own entity type and id. */
  lemma CsvEntityColumnsCorrected(row: Row, dt: DateText, entityType: string, entityId: string)
    requires "entity_type" in row && row["entity_type"] == Str(entityType)
    requires "entity_id" in row && row["entity_id"] == Str(entityId)
    ensures CsvFields(row, SnakeColumns, dt)[3] == Quote(entityType)
    ensures CsvFields(row, SnakeColumns, dt)[4] == Quote(entityId)
  {
  }

  /** A cell whose text holds no line break. */
  predicate SingleLine(c: Cell, dt: DateText) {
    match c
    case Str(s) => '\n' !in s
    case Time(t) => '\n' !in dt(t)
    case _ => true
  }

  ghost predicate SingleLineRows(rows: seq<Row>, dt: DateText) {
    forall i, k :: 0 <= i < |rows| && k in rows[i] ==> SingleLine(rows[i][k], dt)
  }

  lemma JsTextSingleLine(v: Option<Cell>, dt: DateText)
    requires v.Some? ==> SingleLine(v.value, dt)
    ensures '\n' !in JsText(v, dt) && '\n' !in OrEmpty(v, dt)
  {
    match v
    case None =>
      assert JsText(v, dt) == "undefined";
    case Some(Null) =>
    case Some(Num(n)) =>
      var d := Decimal(if n < 0 then -n else n);
      DecimalDigits(if n < 0 then -n else n);
      assert '\n' !in d;
      assert IntToString(n) == (if n < 0 then "-" + d else d);
    case Some(Str(s)) =>
    case Some(Time(t)) =>
  }

  lemma CsvLineSingle(row: Row, cols: seq<string>, dt: DateText)
    requires |cols| == 10
    requires forall k :: k in row ==> SingleLine(row[k], dt)
    ensures '\n' !in CsvLine(row, cols, dt)
  {
    var fields := CsvFields(row, cols, dt);
    forall j | 0 <= j < 10 ensures '\n' !in fields[j] {
      var v := Get(row, cols[j]);
      JsTextSingleLine(v, dt);
      QuoteAvoids(JsText(v, dt), '\n');
      QuoteAvoids(OrEmpty(v, dt), '\n');
      if j == 0 {
        assert fields[j] == JsText(v, dt);
      } else if j == 1 {
        assert fields[j] == OrEmpty(v, dt);
      } else if 5 <= j <= 8 {
        assert fields[j] == Quote(OrEmpty(v, dt));
      } else {
        assert fields[j] == Quote(JsText(v, dt));
      }
    }
    JoinAvoids(fields, ",", '\n');
  }

  lemma QuoteAvoids(s: string, c: char)
    requires c != '"' && c !in s
    ensures c !in Quote(s)
  {
  }

  lemma TitleSingleLine()
    ensures '\n' !in Join(CsvTitles, ",")
  {
    forall j | 0 <= j < |CsvTitles| ensures '\n' !in CsvTitles[j] {
    }
    JoinAvoids(CsvTitles, ",", '\n');
  }

  lemma LinesSingle(rows: seq<Row>, cols: seq<string>, dt: DateText)
    requires |cols| == 10 && SingleLineRows(rows, dt)
    ensures forall i :: 0 <= i < |rows| ==> '\n' !in CsvLines(rows, cols, dt)[i]
  {
    forall i | 0 <= i < |rows| ensures '\n' !in CsvLines(rows, cols, dt)[i] {
      CsvLineSingle(rows[i], cols, dt);
    }
  }

  /** Lines free of line breaks, joined under a title line, split back apart. */
  lemma SplitLines(title: string, lines: seq<string>)
    requires lines != [] && '\n' !in title
    requires forall i :: 0 <= i < |lines| ==> '\n' !in lines[i]
    ensures Split(title + "\n" + Join(lines, "\n"), '\n') == [title] + lines
  {
    var parts := [title] + lines;
    assert forall i :: 1 <= i < |parts| ==> parts[i] == lines[i - 1];
    assert parts[1..] == lines;
    assert "\n" == ['\n'];
    assert Join(parts, "\n") == title + "\n" + Join(lines, "\n");
    JoinSplit(parts, '\n');
  }

  /** With no line break inside any cell, splitting the export at line breaks
      gives back the header line and exactly one line per event, in order. */
  lemma CsvOneLinePerEvent(rows: seq<Row>, cols: seq<string>, dt: DateText)
    requires |cols| == 10 && rows != [] && SingleLineRows(rows, dt)
    ensures Split(CsvExport(rows, cols, dt), '\n') == [Join(CsvTitles, ",")] + CsvLines(rows, cols, dt)
  {
    TitleSingleLine();
    LinesSingle(rows, cols, dt);
    SplitLines(Join(CsvTitles, ","), CsvLines(rows, cols, dt));
  }
}
