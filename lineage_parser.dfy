/** The naive lineage extractor of the lineage API (services/lineage-api/src/lineage/parser.ts).
    The SQL text is normalised (whitespace runs collapsed to one space, trimmed,
    lower-cased), then the global pattern `(from|join)\s+([a-zA-Z0-9_]+\.[a-zA-Z0-9_]+)`
    is executed repeatedly; every captured `namespace.name` is added to an
    insertion-ordered set whose contents are returned as `upstreamAssets`. */
module LineageParser {
  import opened Wrappers
  import opened Text
  import opened Seqs

  datatype ParsedLineage = ParsedLineage(upstreamAssets: seq<string>)

  // ---------------------------------------------------------------------------
  // Normalisation: sql.replace(/\s+/g, ' ').trim().toLowerCase()
  // ---------------------------------------------------------------------------

  /** Drops the leading run of whitespace. */
  function DropSpaces(s: string): (r: string)
    ensures |r| <= |s| && r == s[|s| - |r|..]
    ensures r == [] || !IsSpace(r[0])
    ensures forall i :: 0 <= i < |s| - |r| ==> IsSpace(s[i])
    ensures s != [] && IsSpace(s[0]) ==> |r| < |s|
  {
    if s != [] && IsSpace(s[0]) then DropSpaces(s[1..]) else s
  }

  /** `s.replace(/\s+/g, ' ')`: every maximal whitespace run becomes one space. */
  function CollapseSpaces(s: string): string
    decreases |s|
  {
    if s == [] then []
    else if IsSpace(s[0]) then " " + CollapseSpaces(DropSpaces(s))
    else [s[0]] + CollapseSpaces(s[1..])
  }

  /** Drops the trailing run of whitespace. */
  function DropTrailingSpaces(s: string): (r: string)
    ensures |r| <= |s| && r == s[..|r|]
    ensures r == [] || !IsSpace(r[|r| - 1])
  {
    if s != [] && IsSpace(s[|s| - 1]) then DropTrailingSpaces(s[..|s| - 1]) else s
  }

  /** `s.trim()`. */
  function Trim(s: string): string {
    DropTrailingSpaces(DropSpaces(s))
  }

  function Normalize(sql: string): (r: string)
    ensures forall i :: 0 <= i < |r| ==> !IsUpper(r[i])
  {
    ToLower(Trim(CollapseSpaces(sql)))
  }

  // ---------------------------------------------------------------------------
  // The pattern (from|join)\s+([a-zA-Z0-9_]+\.[a-zA-Z0-9_]+), matched at one position
  // ---------------------------------------------------------------------------

  predicate IsWordChar(c: char) {
    IsLower(c) || IsUpper(c) || IsDigit(c) || c == '_'
  }

  /** The end of the longest run of word characters starting at i. */
  function WordEnd(s: string, i: nat): (e: nat)
    requires i <= |s|
    ensures i <= e <= |s|
    ensures forall k :: i <= k < e ==> IsWordChar(s[k])
    ensures e == |s| || !IsWordChar(s[e])
    decreases |s| - i
  {
    if i < |s| && IsWordChar(s[i]) then WordEnd(s, i + 1) else i
  }

  /** The end of the longest run of whitespace starting at i. */
  function SpaceEnd(s: string, i: nat): (e: nat)
    requires i <= |s|
    ensures i <= e <= |s|
    ensures forall k :: i <= k < e ==> IsSpace(s[k])
    ensures e == |s| || !IsSpace(s[e])
    decreases |s| - i
  {
    if i < |s| && IsSpace(s[i]) then SpaceEnd(s, i + 1) else i
  }

  /** One successful execution of the pattern: where it starts, where it ends
      (the next `lastIndex`) and the second capture group. */
  datatype Match = Match(start: nat, end: nat, name: string)

  /** The match of the pattern that starts exactly at position p, if any. Greedy
      quantifiers over disjoint character classes cannot backtrack into a different
      match, so the longest runs decide. */
  function MatchAt(s: string, p: nat): (r: Option<Match>)
    ensures r.Some? ==> r.value.start == p < r.value.end <= |s|
  {
    if p + 4 <= |s| && (s[p..p + 4] == "from" || s[p..p + 4] == "join") then
      var w := SpaceEnd(s, p + 4);
      if w == p + 4 then None
      else
        var a := WordEnd(s, w);
        if a == w || a == |s| || s[a] != '.' then None
        else
          var b := WordEnd(s, a + 1);
          if b == a + 1 then None else Some(Match(p, b, s[w..b]))
    else None
  }

  /** `regex.exec(s)` with `lastIndex == from`: the leftmost match at or after from. */
  function NextMatch(s: string, from: nat): (r: Option<Match>)
    ensures r.Some? ==> from <= r.value.start < r.value.end <= |s| && MatchAt(s, r.value.start) == r
    ensures forall q :: from <= q < (if r.Some? then r.value.start else |s|) ==> MatchAt(s, q).None?
    decreases |s| - from
  {
    if from >= |s| then None
    else if MatchAt(s, from).Some? then MatchAt(s, from)
    else NextMatch(s, from + 1)
  }

  /** The captured names of every match found by repeated `exec` from `from` on. */
  function Scan(s: string, from: nat): seq<string>
    decreases |s| - from
  {
    match NextMatch(s, from)
    case None => []
    case Some(m) => [m.name] + Scan(s, m.end)
  }

  /** What `parseSqlToLineage(sql).upstreamAssets` is. */
  function UpstreamAssets(sql: string): seq<string> {
    Distinct(Scan(Normalize(sql), 0))
  }

  // ---------------------------------------------------------------------------
  // The extractor as the source runs it: a loop over exec results into a Set
  // ---------------------------------------------------------------------------

  method ParseSqlToLineage(sql: string) returns (result: ParsedLineage)
    ensures result.upstreamAssets == UpstreamAssets(sql)
  {
    var normalized := Normalize(sql);
    var upstream: seq<string> := [];
    var lastIndex: nat := 0;
    var match_ := NextMatch(normalized, lastIndex);
    while match_.Some?
      invariant lastIndex <= |normalized|
      invariant match_ == NextMatch(normalized, lastIndex)
      invariant AddAll(upstream, Scan(normalized, lastIndex)) == Distinct(Scan(normalized, 0))
      decreases |normalized| - lastIndex
    {
      var m := match_.value;
      if m.name !in upstream {
        upstream := upstream + [m.name];
      }
      lastIndex := m.end;
      match_ := NextMatch(normalized, lastIndex);
    }
    result := ParsedLineage(upstream);
  }

  // ---------------------------------------------------------------------------
  // Properties
  // ---------------------------------------------------------------------------

  /** No entry of upstreamAssets appears twice. */
  lemma UpstreamNoDuplicates(sql: string)
    ensures NoDup(UpstreamAssets(sql))
  {
    DistinctNoDup(Scan(Normalize(sql), 0));
  }

  /** upstreamAssets holds exactly the captured names, in the order of their first match. */
  lemma UpstreamFirstMatchOrder(sql: string)
    ensures forall x :: x in UpstreamAssets(sql) <==> x in Scan(Normalize(sql), 0)
    ensures forall i, j :: 0 <= i < j < |UpstreamAssets(sql)| ==>
              FirstIndex(Scan(Normalize(sql), 0), UpstreamAssets(sql)[i])
              < FirstIndex(Scan(Normalize(sql), 0), UpstreamAssets(sql)[j])
  {
    var xs := Scan(Normalize(sql), 0);
    forall x ensures x in UpstreamAssets(sql) <==> x in xs { DistinctElements(xs, x); }
    DistinctFirstOccurrenceOrder(xs);
  }

  predicate IsLowerWordChar(c: char) {
    IsLower(c) || IsDigit(c) || c == '_'
  }

  /** `x.y` with exactly one dot and x, y non-empty runs of [a-z0-9_]. */
  predicate IsQualifiedName(n: string) {
    exists k :: 0 < k < |n| - 1 && n[k] == '.' && n[..k] + "." + n[k + 1..] == n &&
      (forall i :: 0 <= i < |n| && i != k ==> IsLowerWordChar(n[i]))
  }

  /** Where the pieces of a match lie: the captured name is s[w..b], whose only
      non-word character is the dot at a. */
  lemma MatchAtParts(s: string, p: nat) returns (w: nat, a: nat, b: nat)
    requires MatchAt(s, p).Some?
    ensures w < a && a + 1 < b <= |s| && s[a] == '.'
    ensures MatchAt(s, p).value.name == s[w..b]
    ensures forall i :: w <= i < b && i != a ==> IsWordChar(s[i])
  {
    w := SpaceEnd(s, p + 4);
    a := WordEnd(s, w);
    b := WordEnd(s, a + 1);
  }

  lemma MatchAtShape(s: string, p: nat)
    requires forall i :: 0 <= i < |s| ==> !IsUpper(s[i])
    requires MatchAt(s, p).Some?
    ensures IsQualifiedName(MatchAt(s, p).value.name)
  {
    var w, a, b := MatchAtParts(s, p);
    var n := s[w..b];
    var k := a - w;
    assert n[k] == s[a];
    SplitAtDot(n, k);
    forall i | 0 <= i < |n| && i != k ensures IsLowerWordChar(n[i]) {
      assert n[i] == s[w + i];
      assert IsWordChar(s[w + i]) && !IsUpper(s[w + i]);
    }
    assert 0 < k < |n| - 1 && n[k] == '.';
  }

  lemma SplitAtDot(n: string, k: nat)
    requires k < |n| && n[k] == '.'
    ensures n[..k] + "." + n[k + 1..] == n
  {
    var m := n[..k] + "." + n[k + 1..];
    assert |m| == |n|;
    forall i | 0 <= i < |n| ensures m[i] == n[i] {
      if i < k {
        assert m[i] == n[..k][i];
      } else if i > k {
        assert m[i] == n[k + 1..][i - k - 1];
      }
    }
  }

  lemma {:induction false} ScanShape(s: string, from: nat)
    requires forall i :: 0 <= i < |s| ==> !IsUpper(s[i])
    ensures forall n :: n in Scan(s, from) ==> IsQualifiedName(n)
    decreases |s| - from
  {
    match NextMatch(s, from)
    case None =>
    case Some(m) =>
      MatchAtShape(s, m.start);
      ScanShape(s, m.end);
  }

  /** Every entry is `x.y` with exactly one dot, x and y non-empty and lower case:
      the input is lower-cased before the scan. */
  lemma UpstreamEntriesAreQualifiedNames(sql: string)
    ensures forall n :: n in UpstreamAssets(sql) ==> IsQualifiedName(n)
  {
    var xs := Scan(Normalize(sql), 0);
    ScanShape(Normalize(sql), 0);
    forall n | n in UpstreamAssets(sql) ensures IsQualifiedName(n) { DistinctElements(xs, n); }
  }

  /** After FROM/JOIN and whitespace, a name with no dot right after its word run
      produces no match at that position. */
  lemma UnqualifiedNameIsNotReported(s: string, p: nat)
    requires p + 4 <= |s| && (s[p..p + 4] == "from" || s[p..p + 4] == "join")
    requires var a := WordEnd(s, SpaceEnd(s, p + 4)); a == |s| || s[a] != '.'
    ensures MatchAt(s, p) == None
  {
  }

  lemma NextMatchNone(s: string, from: nat)
    ensures NextMatch(s, from).None? <==> forall p :: from <= p < |s| ==> MatchAt(s, p).None?
  {
    if NextMatch(s, from).Some? {
      var m := NextMatch(s, from).value;
      assert MatchAt(s, m.start).Some?;
    }
  }

  /** upstreamAssets is empty exactly when the pattern matches nowhere in the normalised text. */
  lemma UpstreamEmptyIffNoMatch(sql: string)
    ensures UpstreamAssets(sql) == [] <==>
            forall p :: 0 <= p < |Normalize(sql)| ==> MatchAt(Normalize(sql), p).None?
  {
    var s := Normalize(sql);
    NextMatchNone(s, 0);
    var xs := Scan(s, 0);
    if xs != [] {
      DistinctElements(xs, xs[0]);
    }
  }

  // Case and whitespace insensitivity

  lemma {:induction false} DropSpacesLower(s: string)
    ensures DropSpaces(ToLower(s)) == ToLower(DropSpaces(s))
  {
    if s != [] {
      var t := ToLower(s);
      assert t[0] == LowerChar(s[0]);
      if IsSpace(s[0]) {
        assert t[1..] == ToLower(s[1..]);
        DropSpacesLower(s[1..]);
      }
    }
  }

  lemma {:induction false} DropTrailingSpacesLower(s: string)
    ensures DropTrailingSpaces(ToLower(s)) == ToLower(DropTrailingSpaces(s))
  {
    if s != [] && IsSpace(s[|s| - 1]) {
      assert ToLower(s)[..|s| - 1] == ToLower(s[..|s| - 1]);
      DropTrailingSpacesLower(s[..|s| - 1]);
    }
  }

  lemma TrimLower(s: string)
    ensures Trim(ToLower(s)) == ToLower(Trim(s))
  {
    DropSpacesLower(s);
    DropTrailingSpacesLower(DropSpaces(s));
  }

  /** The result depends only on the text after whitespace runs are collapsed and
      letters are folded: inputs that differ only in letter case or in the length
      and kind of their whitespace runs give the same upstreamAssets. */
  lemma UpstreamIgnoresCaseAndSpacing(a: string, b: string)
    requires ToLower(CollapseSpaces(a)) == ToLower(CollapseSpaces(b))
    ensures UpstreamAssets(a) == UpstreamAssets(b)
  {
    var ca, cb := CollapseSpaces(a), CollapseSpaces(b);
    TrimLower(ca);
    TrimLower(cb);
    ToLowerIdempotent(Trim(ca));
    ToLowerIdempotent(Trim(cb));
    assert Normalize(a) == Trim(ToLower(ca)) == Trim(ToLower(cb)) == Normalize(b);
  }

  /** A string in which whitespace only occurs as single spaces. */
  predicate Collapsed(s: string) {
    forall i :: 0 <= i < |s| && IsSpace(s[i]) ==> s[i] == ' ' && (i + 1 == |s| || !IsSpace(s[i + 1]))
  }

  lemma ConsCollapsed(c: char, x: string)
    requires Collapsed(x)
    requires IsSpace(c) ==> c == ' ' && (x == [] || !IsSpace(x[0]))
    ensures Collapsed([c] + x)
  {
    var y := [c] + x;
    forall i | 0 <= i < |y| && IsSpace(y[i])
      ensures y[i] == ' ' && (i + 1 == |y| || !IsSpace(y[i + 1]))
    {
      if i > 0 {
        assert y[i] == x[i - 1];
        assert i + 1 < |y| ==> y[i + 1] == x[i];
      }
    }
  }

  lemma {:induction false} CollapseSpacesCollapsed(s: string)
    ensures Collapsed(CollapseSpaces(s))
    ensures CollapseSpaces(s) == [] <==> s == []
    ensures s != [] && !IsSpace(s[0]) ==> CollapseSpaces(s)[0] == s[0]
    ensures s != [] && IsSpace(s[0]) ==> CollapseSpaces(s)[0] == ' '
    decreases |s|
  {
    if s != [] {
      if IsSpace(s[0]) {
        var d := DropSpaces(s);
        CollapseSpacesCollapsed(d);
        ConsCollapsed(' ', CollapseSpaces(d));
      } else {
        CollapseSpacesCollapsed(s[1..]);
        ConsCollapsed(s[0], CollapseSpaces(s[1..]));
      }
    }
  }

  lemma {:induction false} CollapseSpacesOfCollapsed(s: string)
    requires Collapsed(s)
    ensures CollapseSpaces(s) == s
    decreases |s|
  {
    if s != [] {
      assert Collapsed(s[1..]);
      if IsSpace(s[0]) {
        assert DropSpaces(s) == s[1..];
      }
      CollapseSpacesOfCollapsed(s[1..]);
    }
  }

  /** Collapsing whitespace first does not change the result. */
  lemma UpstreamOfCollapsed(sql: string)
    ensures UpstreamAssets(CollapseSpaces(sql)) == UpstreamAssets(sql)
  {
    CollapseSpacesCollapsed(sql);
    CollapseSpacesOfCollapsed(CollapseSpaces(sql));
    UpstreamIgnoresCaseAndSpacing(CollapseSpaces(sql), sql);
  }

  // Worked examples

  /** Positions whose character is neither 'f' nor 'j' cannot start a match. */
  lemma {:induction false} SkipNonKeywordLetters(s: string, lo: nat, hi: nat)
    requires lo <= hi <= |s|
    requires forall q :: lo <= q < hi ==> s[q] != 'f' && s[q] != 'j'
    ensures NextMatch(s, lo) == NextMatch(s, hi)
    decreases hi - lo
  {
    if lo < hi {
      NoKeywordSkip(s, lo);
      SkipNonKeywordLetters(s, lo + 1, hi);
    }
  }

  lemma NoKeywordSkip(s: string, q: nat)
    requires q < |s| && s[q] != 'f' && s[q] != 'j'
    ensures NextMatch(s, q) == NextMatch(s, q + 1)
  {
    NoKeywordNoMatch(s, q);
    NextMatchSkip(s, q);
  }

  /** The search passes over a position where the pattern does not match. */
  lemma NextMatchSkip(s: string, q: nat)
    requires q < |s| && MatchAt(s, q).None?
    ensures NextMatch(s, q) == NextMatch(s, q + 1)
  {
  }

  /** A position holding neither 'f' nor 'j' cannot start `from` or `join`. */
  lemma NoKeywordNoMatch(s: string, q: nat)
    requires q < |s| && s[q] != 'f' && s[q] != 'j'
    ensures MatchAt(s, q) == None
  {
    if q + 4 <= |s| {
      assert s[q..q + 4][0] == s[q];
    }
  }

  /** Trimmed, collapsed text is only lower-cased by the normalisation. */
  lemma NormalizeOfTrimmedCollapsed(s: string)
    requires s == [] || (!IsSpace(s[0]) && !IsSpace(s[|s| - 1]))
    requires Collapsed(s)
    ensures Normalize(s) == ToLower(s)
  {
    CollapseSpacesOfCollapsed(s);
    assert Trim(s) == s;
  }

  /** Text that is already trimmed, collapsed and lower case is its own normal form. */
  lemma NormalizeOfNormalized(s: string)
    requires s == [] || (!IsSpace(s[0]) && !IsSpace(s[|s| - 1]))
    requires Collapsed(s)
    requires forall i :: 0 <= i < |s| ==> !IsUpper(s[i])
    ensures Normalize(s) == s
  {
    NormalizeOfTrimmedCollapsed(s);
    assert ToLower(s) == s;
  }

  /** Once the scan position passes the last match, nothing more is found. */
  lemma ScanFromNone(s: string, from: nat)
    requires NextMatch(s, from) == None
    ensures Scan(s, from) == []
  {
  }

  /** A scan whose next match is m reports m's name and resumes at m's end. */
  lemma ScanFromSome(s: string, from: nat, m: Match)
    requires NextMatch(s, from) == Some(m)
    ensures Scan(s, from) == [m.name] + Scan(s, m.end)
  {
  }

  lemma DistinctOfSingle(x: string)
    ensures Distinct([x]) == [x]
  {
    assert [x][1..] == [];
    assert AddAll([], [x]) == AddAll([x], []);
  }

  /** Letters, `*` and `.` are not whitespace. */
  predicate PlainChar(c: char) { IsLower(c) || c == '*' || c == '.' }

  /** Plain characters separated by single spaces form collapsed text. */
  lemma SingleSpacedCollapsed(s: string)
    requires forall i :: 0 <= i < |s| ==> s[i] == ' ' || PlainChar(s[i])
    requires forall i :: 0 <= i < |s| - 1 && s[i] == ' ' ==> PlainChar(s[i + 1])
    ensures Collapsed(s)
  {
  }

  lemma ThreePartCollapsed()
    ensures Collapsed("select * from a.b.c")
  {
    SingleSpacedCollapsed("select * from a.b.c");
  }

  lemma ThreePartLower()
    ensures forall i :: 0 <= i < |"select * from a.b.c"| ==> !IsUpper("select * from a.b.c"[i])
  {
  }

  lemma ThreePartNormalized()
    ensures Normalize("select * from a.b.c") == "select * from a.b.c"
  {
    ThreePartCollapsed();
    ThreePartLower();
    NormalizeOfNormalized("select * from a.b.c");
  }

  lemma ThreePartMatch()
    ensures MatchAt("select * from a.b.c", 9) == Some(Match(9, 17, "a.b"))
  {
    var s := "select * from a.b.c";
    assert s[9..13] == "from";
    assert SpaceEnd(s, 13) == 14;
    assert WordEnd(s, 14) == 15;
    assert WordEnd(s, 16) == 17;
    assert s[15] == '.';
    assert s[14..17] == "a.b";
  }

  lemma ThreePartScan()
    ensures Scan("select * from a.b.c", 0) == ["a.b"]
  {
    var s := "select * from a.b.c";
    SkipNonKeywordLetters(s, 0, 9);
    ThreePartMatch();
    assert NextMatch(s, 9) == Some(Match(9, 17, "a.b"));
    SkipNonKeywordLetters(s, 17, |s|);
    ScanFromNone(s, 17);
    ScanFromSome(s, 0, Match(9, 17, "a.b"));
  }

  /** `FROM a.b.c` reports only `a.b`: the capture stops at the second dot. */
  lemma ThreePartNameExample()
    ensures UpstreamAssets("select * from a.b.c") == ["a.b"]
  {
    ThreePartNormalized();
    ThreePartScan();
    DistinctOfSingle("a.b");
  }
}
