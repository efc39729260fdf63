/** The parts of the governance repository (services/governance/src/db/repository.ts)
    that compute rather than query: merging the two asset sources of
    `getDataAssets`, the id `createDataAsset` gives a new asset, the SET list of
    `updateDataAsset`, and the positional-parameter query `getAuditEvents` builds. */
module Repository {
  import opened Wrappers
  import opened Text
  import opened Seqs

  // ---------------------------------------------------------------------------
  // getDataAssets: curated assets first, then those ingested from connectors
  // ---------------------------------------------------------------------------

  /** An asset as `getDataAssets` returns it. */
  datatype AssetRow = AssetRow(id: string, name: string, namespace: string, sourceSystem: string, assetType: string)

  /** `self.findIndex(a => a.id === id)`: the first index holding that id, -1 if none. */
  function FindIndex(xs: seq<AssetRow>, id: string): (k: int)
    ensures -1 <= k < |xs|
    ensures k >= 0 ==> xs[k].id == id && forall j :: 0 <= j < k ==> xs[j].id != id
    ensures k < 0 ==> forall j :: 0 <= j < |xs| ==> xs[j].id != id
  {
    if xs == [] then -1
    else if xs[0].id == id then 0
    else
      var k := FindIndex(xs[1..], id);
      assert forall j :: 1 <= j < |xs| ==> xs[j] == xs[1..][j - 1];
      if k < 0 then -1 else k + 1
  }

  /** The elements of `xs[from..]` that sit at the first index of their id:
      `filter((asset, index, self) => index === self.findIndex(...))`. */
  function KeepFirst(xs: seq<AssetRow>, from: nat): seq<AssetRow>
    decreases |xs| - from
  {
    if from >= |xs| then []
    else (if FindIndex(xs, xs[from].id) == from then [xs[from]] else []) + KeepFirst(xs, from + 1)
  }

  /** The merged list `getDataAssets` returns. */
  function UniqueAssets(dataAssets: seq<AssetRow>, auditAssets: seq<AssetRow>): seq<AssetRow> {
    KeepFirst(dataAssets + auditAssets, 0)
  }

  /** Every kept element sits at the first index of its id. */
  lemma {:induction false} KeepFirstSound(xs: seq<AssetRow>, from: nat, r: AssetRow)
    requires r in KeepFirst(xs, from)
    ensures exists i :: from <= i < |xs| && FindIndex(xs, xs[i].id) == i && xs[i] == r
    decreases |xs| - from
  {
    var head := if FindIndex(xs, xs[from].id) == from then [xs[from]] else [];
    assert KeepFirst(xs, from) == head + KeepFirst(xs, from + 1);
    if r in head {
      assert FindIndex(xs, xs[from].id) == from && xs[from] == r;
    } else {
      KeepFirstSound(xs, from + 1, r);
      var i :| from + 1 <= i < |xs| && FindIndex(xs, xs[i].id) == i && xs[i] == r;
      assert from <= i;
    }
  }

  /** Every element at the first index of its id is kept. */
  lemma {:induction false} KeepFirstComplete(xs: seq<AssetRow>, from: nat, i: nat)
    requires from <= i < |xs| && FindIndex(xs, xs[i].id) == i
    ensures xs[i] in KeepFirst(xs, from)
    decreases i - from
  {
    var head := if FindIndex(xs, xs[from].id) == from then [xs[from]] else [];
    assert KeepFirst(xs, from) == head + KeepFirst(xs, from + 1);
    if i == from {
      assert xs[i] in head;
    } else {
      KeepFirstComplete(xs, from + 1, i);
    }
  }

  lemma KeepFirstMembers(xs: seq<AssetRow>, from: nat, r: AssetRow)
    ensures r in KeepFirst(xs, from) <==> exists i :: from <= i < |xs| && FindIndex(xs, xs[i].id) == i && xs[i] == r
  {
    if r in KeepFirst(xs, from) {
      KeepFirstSound(xs, from, r);
    }
    if exists i :: from <= i < |xs| && FindIndex(xs, xs[i].id) == i && xs[i] == r {
      var i :| from <= i < |xs| && FindIndex(xs, xs[i].id) == i && xs[i] == r;
      KeepFirstComplete(xs, from, i);
    }
  }

  lemma {:induction false} KeepFirstDistinct(xs: seq<AssetRow>, from: nat)
    ensures var r := KeepFirst(xs, from); forall p, q :: 0 <= p < q < |r| ==> r[p].id != r[q].id
    decreases |xs| - from
  {
    if from < |xs| {
      KeepFirstDistinct(xs, from + 1);
      var tail := KeepFirst(xs, from + 1);
      if FindIndex(xs, xs[from].id) == from {
        var r := [xs[from]] + tail;
        forall q | 0 < q < |r| ensures r[0].id != r[q].id {
          assert r[q] == tail[q - 1];
          KeepFirstMembers(xs, from + 1, tail[q - 1]);
        }
        forall p, q | 0 <= p < q < |r| ensures r[p].id != r[q].id {
          if p > 0 {
            assert r[p] == tail[p - 1] && r[q] == tail[q - 1];
          }
        }
      }
    }
  }

  lemma {:induction false} KeepFirstOrder(xs: seq<AssetRow>, from: nat)
    requires from <= |xs|
    ensures Subsequence(KeepFirst(xs, from), xs[from..])
    decreases |xs| - from
  {
    if from < |xs| {
      KeepFirstOrder(xs, from + 1);
      var tail := KeepFirst(xs, from + 1);
      assert xs[from..][1..] == xs[from + 1..];
      if FindIndex(xs, xs[from].id) == from {
        assert ([xs[from]] + tail)[1..] == tail;
      } else if tail != [] {
        assert KeepFirst(xs, from) == tail;
      }
    }
  }

  /** No two merged assets share an id. */
  lemma AssetIdsDistinct(dataAssets: seq<AssetRow>, auditAssets: seq<AssetRow>)
    ensures var r := UniqueAssets(dataAssets, auditAssets);
      forall p, q :: 0 <= p < q < |r| ==> r[p].id != r[q].id
  {
    assert UniqueAssets(dataAssets, auditAssets) == KeepFirst(dataAssets + auditAssets, 0);
    KeepFirstDistinct(dataAssets + auditAssets, 0);
  }

  /** Every id of either source appears in the merged list. */
  lemma EveryIdAppears(dataAssets: seq<AssetRow>, auditAssets: seq<AssetRow>, a: AssetRow)
    requires a in dataAssets || a in auditAssets
    ensures exists r :: r in UniqueAssets(dataAssets, auditAssets) && r.id == a.id
  {
    var xs := dataAssets + auditAssets;
    assert a in xs;
    var k := FindIndex(xs, a.id);
    assert FindIndex(xs, xs[k].id) == k;
    KeepFirstMembers(xs, 0, xs[k]);
  }

  /** When both sources hold an id, the merged entry is the curated one. */
  lemma CuratedEntryWins(dataAssets: seq<AssetRow>, auditAssets: seq<AssetRow>, r: AssetRow)
    requires r in UniqueAssets(dataAssets, auditAssets)
    requires exists d :: d in dataAssets && d.id == r.id
    ensures r in dataAssets
  {
    var xs := dataAssets + auditAssets;
    KeepFirstMembers(xs, 0, r);
    var i :| 0 <= i < |xs| && FindIndex(xs, xs[i].id) == i && xs[i] == r;
    var d :| d in dataAssets && d.id == r.id;
    var j :| 0 <= j < |dataAssets| && dataAssets[j] == d;
    assert xs[j] == d;
    assert i <= j;
    assert xs[i] == dataAssets[i];
  }

  /** The merged list keeps the relative order of the two sources. */
  lemma MergeKeepsOrder(dataAssets: seq<AssetRow>, auditAssets: seq<AssetRow>)
    ensures Subsequence(UniqueAssets(dataAssets, auditAssets), dataAssets + auditAssets)
  {
    var xs := dataAssets + auditAssets;
    KeepFirstOrder(xs, 0);
    assert xs[0..] == xs;
  }

  // ---------------------------------------------------------------------------
  // createDataAsset
  // ---------------------------------------------------------------------------

  /** The id `createDataAsset` gives an asset: `${sourceSystem}.${namespace}.${name}`. */
  function AssetId(sourceSystem: string, namespace: string, name: string): string {
    sourceSystem + "." + namespace + "." + name
  }

  /** For dot-free parts the id splits back into them. */
  lemma AssetIdRoundTrip(sourceSystem: string, namespace: string, name: string)
    requires '.' !in sourceSystem && '.' !in namespace && '.' !in name
    ensures Split(AssetId(sourceSystem, namespace, name), '.') == [sourceSystem, namespace, name]
  {
    var parts := [sourceSystem, namespace, name];
    assert parts[1..] == [namespace, name] && parts[1..][1..] == [name];
    assert Join([namespace, name], ['.']) == namespace + ['.'] + name;
    assert Join(parts, ['.']) == sourceSystem + ['.'] + (namespace + ['.'] + name);
    assert "." == ['.'];
    assert AssetId(sourceSystem, namespace, name) == Join(parts, ['.']);
    JoinSplit(parts, '.');
  }

  /** Dot-free parts give distinct assets distinct ids. */
  lemma AssetIdInjective(s1: string, n1: string, m1: string, s2: string, n2: string, m2: string)
    requires '.' !in s1 && '.' !in n1 && '.' !in m1 && '.' !in s2 && '.' !in n2 && '.' !in m2
    requires AssetId(s1, n1, m1) == AssetId(s2, n2, m2)
    ensures s1 == s2 && n1 == n2 && m1 == m2
  {
    AssetIdRoundTrip(s1, n1, m1);
    AssetIdRoundTrip(s2, n2, m2);
  }

  /** A dot inside a part makes two different assets share an id. */
  lemma DottedPartsCollide()
    ensures AssetId("a.b", "c", "d") == AssetId("a", "b.c", "d")
  {
  }

  // ---------------------------------------------------------------------------
  // updateDataAsset
  // ---------------------------------------------------------------------------

  /** The column a field of the update body is stored in. */
  function DbColumn(field: string): string {
    if field == "sourceSystem" then "source_system"
    else if field == "assetType" then "asset_type"
    else field
  }

  /** `Object.keys(updates).filter(key => key !== 'id')`. */
  function Fields<V>(updates: seq<(string, V)>): (fields: seq<string>)
    ensures |fields| <= |updates|
  {
    if updates == [] then []
    else (if updates[0].0 != "id" then [updates[0].0] else []) + Fields(updates[1..])
  }

  /** `Object.values(updates)`: every value, the id's included. */
  function Values<V>(updates: seq<(string, V)>): (vs: seq<V>)
    ensures |vs| == |updates| && forall i :: 0 <= i < |updates| ==> vs[i] == updates[i].1
  {
    seq(|updates|, i requires 0 <= i < |updates| => updates[i].1)
  }

  /** `${dbField} = $${i + 2}` for each field. */
  function Assignments(fields: seq<string>): (items: seq<string>)
    ensures |items| == |fields|
    ensures forall i :: 0 <= i < |fields| ==> items[i] == DbColumn(fields[i]) + " = $" + Decimal(i + 2)
  {
    seq(|fields|, i requires 0 <= i < |fields| => DbColumn(fields[i]) + " = $" + Decimal(i + 2))
  }

  /** The query's parameters: `[id, ...values]`. */
  function UpdateParams<V>(id: V, updates: seq<(string, V)>): seq<V> {
    [id] + Values(updates)
  }

  /** The SET list as the source writes it: `${setClause}, updated_at = NOW()`. */
  function SetListAsWritten(fields: seq<string>): string {
    Join(Assignments(fields), ", ") + ", " + TouchUpdatedAt
  }

  const TouchUpdatedAt: string := "updated_at = NOW()"

  /** The SET list with `updated_at` as one more item, so that an empty update
      still gives a well-formed statement. */
  function SetList(fields: seq<string>): string {
    Join(Assignments(fields) + [TouchUpdatedAt], ", ")
  }

  /** The statement `updateDataAsset` sends. */
  function UpdateStatement(fields: seq<string>): string {
    "UPDATE data_assets SET " + SetList(fields) + " WHERE id = $1 RETURNING *"
  }

  /** Without an `id` key each field's placeholder `$(i+2)` names that field's own
      value: the id takes `$1`, and the fields follow in key order. */
  lemma {:induction false} UpdateBindsFields<V>(id: V, updates: seq<(string, V)>)
    requires forall k :: 0 <= k < |updates| ==> updates[k].0 != "id"
    ensures var fields := Fields(updates);
      && |fields| == |updates|
      && UpdateParams(id, updates)[0] == id
      && forall i :: 0 <= i < |fields| ==>
           fields[i] == updates[i].0 && UpdateParams(id, updates)[(i + 2) - 1] == updates[i].1
  {
    if updates != [] {
      UpdateBindsFields(id, updates[1..]);
      assert Fields(updates) == [updates[0].0] + Fields(updates[1..]);
    }
  }

  /** An `id` key among the updates is dropped from the fields but not from the
      values, so every later field is bound to its predecessor's value. */
  lemma IdKeyShiftsValues<V>(id: V, v0: V, v1: V)
    ensures var updates := [("id", v0), ("name", v1)];
      && Fields(updates) == ["name"]
      && UpdateParams(id, updates)[(0 + 2) - 1] == v0
  {
    var updates := [("id", v0), ("name", v1)];
    assert updates[1..] == [("name", v1)];
    assert Fields(updates[1..][1..]) == [];
  }

  /** As written, an empty update leaves the SET list starting with a comma:
      `UPDATE data_assets SET , updated_at = NOW() ...`. */
  lemma EmptyUpdateLeadingComma()
    ensures SetListAsWritten([]) == ", updated_at = NOW()"
    ensures SetListAsWritten([])[0] == ','
  {
    assert Assignments([]) == [];
  }

  /** The corrected list differs from the source's only for an empty update, where
      it is the `updated_at` assignment alone. */
  lemma SetListAgrees(fields: seq<string>)
    ensures fields != [] ==> SetList(fields) == SetListAsWritten(fields)
    ensures fields == [] ==> SetList(fields) == TouchUpdatedAt
  {
    JoinSnoc(Assignments(fields), TouchUpdatedAt, ", ");
  }

  lemma {:induction false} JoinSnoc(parts: seq<string>, last: string, sep: string)
    ensures parts != [] ==> Join(parts + [last], sep) == Join(parts, sep) + sep + last
    ensures parts == [] ==> Join(parts + [last], sep) == last
  {
    if |parts| > 1 {
      JoinSnoc(parts[1..], last, sep);
      assert (parts + [last])[1..] == parts[1..] + [last];
    } else if |parts| == 1 {
      assert (parts + [last])[1..] == [last];
    }
  }

  // ---------------------------------------------------------------------------
  // getAuditEvents
  // ---------------------------------------------------------------------------

  /** A query parameter. */
  datatype Param = PStr(s: string) | PNum(n: int) | PDate(t: int)

  /** The filters of `getAuditEvents`; dates are instants. */
  datatype AuditFilters = AuditFilters(entityType: Option<string>, entityId: Option<string>,
                                       actorUserId: Option<int>, startDate: Option<int>,
                                       endDate: Option<int>, limit: Option<int>, offset: Option<int>)

  /** One condition the builder may add: its SQL up to the placeholder `$n`, and
      the value that placeholder binds. */
  datatype Clause = Clause(cond: string, value: Param)

  /** JavaScript truthiness of an optional string and an optional number; a Date
      object is always truthy. */
  predicate TruthyStr(s: Option<string>) { s.Some? && s.value != "" }
  predicate TruthyNum(n: Option<int>) { n.Some? && n.value != 0 }

  const SelectAudit: string := "SELECT * FROM audit_logs_enhanced WHERE 1=1"
  const NewestFirst: string := " ORDER BY created_at DESC"
  const EntityTypeCond: string := " AND entity_type = "
  const EntityIdCond: string := " AND entity_id = "
  const ActorCond: string := " AND actor_user_id = "
  const StartCond: string := " AND created_at >= "
  const EndCond: string := " AND created_at <= "
  const LimitCond: string := " LIMIT "
  const OffsetCond: string := " OFFSET "

  /** The condition each filter adds: none when the filter is falsy. */
  function EntityTypeClause(f: AuditFilters): seq<Clause> {
    if TruthyStr(f.entityType) then [Clause(EntityTypeCond, PStr(f.entityType.value))] else []
  }
  function EntityIdClause(f: AuditFilters): seq<Clause> {
    if TruthyStr(f.entityId) then [Clause(EntityIdCond, PStr(f.entityId.value))] else []
  }
  function ActorClause(f: AuditFilters): seq<Clause> {
    if TruthyNum(f.actorUserId) then [Clause(ActorCond, PNum(f.actorUserId.value))] else []
  }
  function StartClause(f: AuditFilters): seq<Clause> {
    if f.startDate.Some? then [Clause(StartCond, PDate(f.startDate.value))] else []
  }
  function EndClause(f: AuditFilters): seq<Clause> {
    if f.endDate.Some? then [Clause(EndCond, PDate(f.endDate.value))] else []
  }
  function LimitClause(f: AuditFilters): seq<Clause> {
    if TruthyNum(f.limit) then [Clause(LimitCond, PNum(f.limit.value))] else []
  }
  function OffsetClause(f: AuditFilters): seq<Clause> {
    if TruthyNum(f.offset) then [Clause(OffsetCond, PNum(f.offset.value))] else []
  }

  /** The conditions before ORDER BY, in the order the builder tests them. */
  function WhereClauses(f: AuditFilters): seq<Clause> {
    EntityTypeClause(f) + EntityIdClause(f) + ActorClause(f) + StartClause(f) + EndClause(f)
  }

  /** LIMIT and OFFSET, after ORDER BY. */
  function PageClauses(f: AuditFilters): seq<Clause> {
    LimitClause(f) + OffsetClause(f)
  }

  /** A condition followed by its placeholder `$n`. */
  function Placeholder(cond: string, n: nat): string {
    cond + "$" + Decimal(n)
  }

  /** The clauses with their placeholders numbered from `first`. */
  function Numbered(cs: seq<Clause>, first: nat): string
    decreases |cs|
  {
    if cs == [] then "" else Numbered(cs[..|cs| - 1], first) + Placeholder(cs[|cs| - 1].cond, first + |cs| - 1)
  }

  function ParamsOf(cs: seq<Clause>): (vs: seq<Param>)
    ensures |vs| == |cs| && forall i :: 0 <= i < |cs| ==> vs[i] == cs[i].value
  {
    seq(|cs|, i requires 0 <= i < |cs| => cs[i].value)
  }

  function AuditQuery(f: AuditFilters): string {
    SelectAudit + Numbered(WhereClauses(f), 1) + NewestFirst + Numbered(PageClauses(f), |WhereClauses(f)| + 1)
  }

  function AuditParams(f: AuditFilters): seq<Param> {
    ParamsOf(WhereClauses(f) + PageClauses(f))
  }

  /** The builder's state after the clauses `cs`, numbered from `first`, were appended
      to `head`, with `pre` the values pushed before them. */
  ghost predicate Built(query: string, values: seq<Param>, paramCount: int,
                        head: string, pre: seq<Clause>, cs: seq<Clause>, first: nat)
  {
    query == head + Numbered(cs, first) && values == ParamsOf(pre + cs) && paramCount == first - 1 + |cs|
  }

  /** One `if (filters.x) { paramCount++; query += ...; values.push(filters.x); }`
      block; `clause` is the filter's condition, empty when the filter is falsy. */
  method AddIfSet(query: string, values: seq<Param>, paramCount: int, clause: seq<Clause>,
                  ghost head: string, ghost pre: seq<Clause>, ghost cs: seq<Clause>, ghost first: nat)
    returns (query': string, values': seq<Param>, paramCount': int)
    requires |clause| <= 1 && first >= 1 && Built(query, values, paramCount, head, pre, cs, first)
    ensures Built(query', values', paramCount', head, pre, cs + clause, first)
  {
    if clause != [] {
      var c := clause[0];
      paramCount' := paramCount + 1;
      query' := query + Placeholder(c.cond, paramCount');
      values' := values + [c.value];
      assert cs + clause == cs + [c];
      BuiltStep(query, values, paramCount, head, pre, cs, first, c);
    } else {
      query', values', paramCount' := query, values, paramCount;
      assert cs + clause == cs;
    }
  }

  /** The five WHERE blocks of `getAuditEvents`, in source order. */
  method AddWhereClauses(f: AuditFilters) returns (query: string, values: seq<Param>, paramCount: int)
    ensures Built(query, values, paramCount, SelectAudit, [], WhereClauses(f), 1)
  {
    query := SelectAudit;
    values := [];
    paramCount := 0;
    assert Built(query, values, paramCount, SelectAudit, [], [], 1);
    query, values, paramCount := AddIfSet(query, values, paramCount, EntityTypeClause(f), SelectAudit, [], [], 1);
    ghost var cs := [] + EntityTypeClause(f);
    query, values, paramCount := AddIfSet(query, values, paramCount, EntityIdClause(f), SelectAudit, [], cs, 1);
    cs := cs + EntityIdClause(f);
    query, values, paramCount := AddIfSet(query, values, paramCount, ActorClause(f), SelectAudit, [], cs, 1);
    cs := cs + ActorClause(f);
    query, values, paramCount := AddIfSet(query, values, paramCount, StartClause(f), SelectAudit, [], cs, 1);
    cs := cs + StartClause(f);
    query, values, paramCount := AddIfSet(query, values, paramCount, EndClause(f), SelectAudit, [], cs, 1);
    cs := cs + EndClause(f);
    assert cs == WhereClauses(f);
  }

  /** `getAuditEvents`' query builder: each truthy filter bumps `paramCount`, appends
      its condition with that number, and pushes its value. */
  method BuildAuditQuery(f: AuditFilters) returns (query: string, values: seq<Param>)
    ensures query == AuditQuery(f) && values == AuditParams(f)
  {
    var paramCount;
    query, values, paramCount := AddWhereClauses(f);
    ghost var cs := WhereClauses(f);
    query := query + NewestFirst;
    ghost var head := query;
    assert [] + cs == cs + [];
    assert Built(query, values, paramCount, head, cs, [], |cs| + 1);
    query, values, paramCount := AddIfSet(query, values, paramCount, LimitClause(f), head, cs, [], |cs| + 1);
    ghost var ps := [] + LimitClause(f);
    query, values, paramCount := AddIfSet(query, values, paramCount, OffsetClause(f), head, cs, ps, |cs| + 1);
    ps := ps + OffsetClause(f);
    assert ps == PageClauses(f);
  }

  /** One more clause keeps the builder's state in step with the clauses. */
  lemma BuiltStep(query: string, values: seq<Param>, paramCount: int,
                  head: string, pre: seq<Clause>, cs: seq<Clause>, first: nat, c: Clause)
    requires first >= 1 && Built(query, values, paramCount, head, pre, cs, first)
    ensures Built(query + Placeholder(c.cond, paramCount + 1), values + [c.value], paramCount + 1,
                  head, pre, cs + [c], first)
  {
    NumberedStep(cs, c, first);
    var p := Placeholder(c.cond, paramCount + 1);
    assert paramCount + 1 == first + |cs|;
    assert (head + Numbered(cs, first)) + p == head + (Numbered(cs, first) + p);
    ParamsStep(pre, cs, c);
  }

  /** Appending one numbered clause. */
  lemma NumberedStep(cs: seq<Clause>, c: Clause, first: nat)
    ensures Numbered(cs + [c], first) == Numbered(cs, first) + Placeholder(c.cond, first + |cs|)
  {
    assert (cs + [c])[..|cs|] == cs;
  }

  lemma ParamsStep(pre: seq<Clause>, cs: seq<Clause>, c: Clause)
    ensures ParamsOf(pre + (cs + [c])) == ParamsOf(pre + cs) + [c.value]
  {
    assert pre + (cs + [c]) == (pre + cs) + [c];
  }

  /** No condition text holds a `$` of its own. */
  ghost predicate Plain(cs: seq<Clause>) {
    forall i :: 0 <= i < |cs| ==> '$' !in cs[i].cond
  }

  /** A placeholder holds exactly one `$`. */
  lemma PlaceholderDollar(cond: string, n: nat)
    requires '$' !in cond
    ensures CountChar(Placeholder(cond, n), '$') == 1
  {
    CountCharAbsent(cond, '$');
    DecimalDigits(n);
    CountCharAbsent(Decimal(n), '$');
    CountCharAppend(cond, "$", '$');
    CountCharAppend(cond + "$", Decimal(n), '$');
  }

  /** The number of `$` signs in the numbered clauses is the number of clauses. */
  lemma {:induction false} NumberedDollars(cs: seq<Clause>, first: nat)
    requires Plain(cs)
    ensures CountChar(Numbered(cs, first), '$') == |cs|
    decreases |cs|
  {
    if cs != [] {
      var init := cs[..|cs| - 1];
      var c := cs[|cs| - 1];
      NumberedDollars(init, first);
      PlaceholderDollar(c.cond, first + |cs| - 1);
      CountCharAppend(Numbered(init, first), Placeholder(c.cond, first + |cs| - 1), '$');
    }
  }

  /** The fixed SQL fragments hold no `$`. */
  lemma CondsPlain()
    ensures '$' !in EntityTypeCond && '$' !in EntityIdCond && '$' !in ActorCond
    ensures '$' !in StartCond && '$' !in EndCond && '$' !in LimitCond && '$' !in OffsetCond
    ensures '$' !in SelectAudit && '$' !in NewestFirst
  {
    WhereCondsPlain();
    PageCondsPlain();
    FramePlain();
  }

  lemma WhereCondsPlain()
    ensures '$' !in EntityTypeCond && '$' !in EntityIdCond && '$' !in ActorCond
    ensures '$' !in StartCond && '$' !in EndCond
  {
  }

  lemma PageCondsPlain()
    ensures '$' !in LimitCond && '$' !in OffsetCond
  {
  }

  lemma FramePlain()
    ensures '$' !in SelectAudit && '$' !in NewestFirst
  {
    SelectPlain();
  }

  lemma SelectPlain()
    ensures '$' !in SelectAudit
  {
  }

  lemma PlainConcat(a: seq<Clause>, b: seq<Clause>)
    requires Plain(a) && Plain(b)
    ensures Plain(a + b)
  {
    assert forall i :: 0 <= i < |b| ==> (a + b)[|a| + i] == b[i];
  }

  /** Every condition the builder may add is free of `$`. */
  lemma ClausesPlain(f: AuditFilters)
    ensures Plain(WhereClauses(f)) && Plain(PageClauses(f))
  {
    CondsPlain();
    PlainConcat(EntityTypeClause(f), EntityIdClause(f));
    PlainConcat(EntityTypeClause(f) + EntityIdClause(f), ActorClause(f));
    PlainConcat(EntityTypeClause(f) + EntityIdClause(f) + ActorClause(f), StartClause(f));
    PlainConcat(EntityTypeClause(f) + EntityIdClause(f) + ActorClause(f) + StartClause(f), EndClause(f));
    PlainConcat(LimitClause(f), OffsetClause(f));
  }

  /** The query holds exactly as many placeholders as there are values: `$1..$n`
      with n the length of `values`. */
  lemma PlaceholdersMatchValues(f: AuditFilters)
    ensures CountChar(AuditQuery(f), '$') == |AuditParams(f)|
  {
    ClausesPlain(f);
    CondsPlain();
    QueryDollars(SelectAudit, WhereClauses(f), NewestFirst, PageClauses(f));
  }

  /** Dollar count of a query laid out as `AuditQuery` lays it out. */
  lemma QueryDollars(head: string, ws: seq<Clause>, mid: string, ps: seq<Clause>)
    requires '$' !in head && '$' !in mid && Plain(ws) && Plain(ps)
    ensures CountChar(head + Numbered(ws, 1) + mid + Numbered(ps, |ws| + 1), '$') == |ParamsOf(ws + ps)|
  {
    NumberedDollars(ws, 1);
    NumberedDollars(ps, |ws| + 1);
    CountCharAbsent(head, '$');
    CountCharAbsent(mid, '$');
    CountCharAppend(head, Numbered(ws, 1), '$');
    CountCharAppend(head + Numbered(ws, 1), mid, '$');
    CountCharAppend(head + Numbered(ws, 1) + mid, Numbered(ps, |ws| + 1), '$');
  }

  /** Falsy filters (an empty string, the number 0) add no condition and no value. */
  lemma FalsyFiltersIgnored(f: AuditFilters)
    requires f.entityType == Some("") && f.entityId == Some("") && f.actorUserId == Some(0)
    requires f.limit == Some(0) && f.offset == Some(0)
    ensures AuditQuery(f) == AuditQuery(f.(entityType := None, entityId := None, actorUserId := None, limit := None, offset := None))
    ensures AuditParams(f) == AuditParams(f.(entityType := None, entityId := None, actorUserId := None, limit := None, offset := None))
  {
  }

  /** With every filter set, the values follow the fixed clause order. */
  lemma FullFilterOrder(et: string, eid: string, actor: int, start: int, end: int, limit: int, offset: int)
    requires et != "" && eid != "" && actor != 0 && limit != 0 && offset != 0
    ensures AuditParams(AuditFilters(Some(et), Some(eid), Some(actor), Some(start), Some(end), Some(limit), Some(offset)))
            == [PStr(et), PStr(eid), PNum(actor), PDate(start), PDate(end), PNum(limit), PNum(offset)]
  {
  }

  /** Without filters the query is the bare newest-first select. */
  lemma NoFilters()
    ensures AuditQuery(AuditFilters(None, None, None, None, None, None, None)) == SelectAudit + NewestFirst
    ensures AuditParams(AuditFilters(None, None, None, None, None, None, None)) == []
  {
  }
}
